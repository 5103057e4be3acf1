/** The headered node pool: an intrusive free list over granule-laid chunks, a
    remote stack for nodes freed by other threads, and growth by doubling. */
module Pool {
  import opened Words
  import opened BinMask
  import opened Chains
  import opened Granules
  import opened PoolState

  const GRANULE_TAG: int := 0xa110ca2a_6a121e57
  const TAG: int := 8

  predicate IsNodeOf(g: Grid, c: Slots, p: Addr)
    requires g.Ok()
  {
    g.Contains(c.base, c.count, p)
  }

  /** The layout is proper and its granule has 2^exp bytes. */
  ghost predicate Laid(l: Layout, exp: nat) {
    l.Ok() && l.Granule() == Pow2(exp) && GridOf(l).Ok()
  }

  /** Every slot is in exactly one place: on the free list, on the remote stack, or
      with a user. The counters say how many are where. */
  ghost predicate Partition(free: seq<Addr>, parked: seq<Addr>, held: set<Addr>, slots: set<Addr>, size: nat,
                            capacity: nat) {
    && (forall p: Addr :: p in slots <==> p in free || p in parked || p in held)
    && (forall p: Addr :: p in free ==> p !in parked && p !in held)
    && (forall p: Addr :: p in parked ==> p !in held)
    && size == |held| + |parked|
    && capacity == size + |free|
  }

  /** Masking the address of a slot leads to a header that names this pool. */
  ghost predicate Routed(mem: map<Addr, int>, slots: set<Addr>, headers: set<Addr>, exp: nat, self: int) {
    && (forall h: Addr :: h in headers ==> h in mem && mem[h] == self)
    && (forall p: Addr {:trigger p in slots} :: p in slots ==> p > 0 && p !in headers && MaskBase(p, exp) in headers)
  }

  /** The slots are the nodes of the chunks, nothing else. */
  ghost predicate Covered(l: Layout, chunks: seq<Slots>, slots: set<Addr>) {
    && l.nodeSize > 0 && GridOf(l).Ok()
    && forall p: Addr :: p in slots <==> exists k :: 0 <= k < |chunks| && IsNodeOf(GridOf(l), chunks[k], p)
  }

  /** The headers are those of the granules of the chunks. */
  ghost predicate Headed(g: Grid, chunks: seq<Slots>, headers: set<Addr>)
    requires g.per > 0
  {
    forall h: Addr :: h in headers <==> exists k :: 0 <= k < |chunks| && HeaderIn(g, chunks[k], h)
  }

  ghost predicate HeaderIn(g: Grid, c: Slots, h: Addr)
    requires g.per > 0
  {
    h in HeaderSet(g, c.base, g.GranuleCount(c.count))
  }

  /** No two nodes overlap. */
  ghost predicate SlotsApart(slots: set<Addr>, node: nat) {
    forall p: Addr, q: Addr :: p in slots && q in slots && p < q ==> p + node <= q
  }

  /** Bytes of a chunk. */
  function RegionBytes(g: Grid, c: Slots): nat
    requires g.per > 0
  {
    g.GranuleCount(c.count) * g.granule
  }

  predicate RegionsApart(a: nat, bytes: nat, b: nat, more: nat) {
    a + bytes <= b || b + more <= a
  }

  /** Every node and every header lies within a chunk. */
  ghost predicate Inside(g: Grid, chunks: seq<Slots>, slots: set<Addr>, headers: set<Addr>)
    requires g.per > 0
  {
    && (forall p: Addr :: p in slots ==> Somewhere(g, chunks, p, g.node))
    && (forall h: Addr :: h in headers ==> Somewhere(g, chunks, h, GRANULE_HEADER))
  }

  ghost predicate Somewhere(g: Grid, chunks: seq<Slots>, p: Addr, bytes: nat)
    requires g.per > 0
  {
    exists k :: 0 <= k < |chunks| && Within(g, chunks[k], p, bytes)
  }

  predicate Within(g: Grid, c: Slots, p: Addr, bytes: nat)
    requires g.per > 0
  {
    c.base <= p && p + bytes <= c.base + RegionBytes(g, c)
  }

  /** The words of these nodes are kept. */
  ghost predicate NodesKept(before: map<Addr, int>, after: map<Addr, int>, nodes: set<Addr>, node: nat) {
    forall p: Addr, a: Addr {:trigger p in nodes, a in before} :: p in nodes && p <= a < p + node && a in before ==>
      a in after && after[a] == before[a]
  }

  ghost predicate PartOf(nodes: set<Addr>, slots: set<Addr>) {
    forall p: Addr {:trigger p in nodes} :: p in nodes ==> p in slots
  }

  lemma SameNodes(mem: map<Addr, int>, nodes: set<Addr>, node: nat)
    ensures NodesKept(mem, mem, nodes, node)
  {
  }

  lemma NodesTwice(m0: map<Addr, int>, m1: map<Addr, int>, m2: map<Addr, int>, nodes: set<Addr>, node: nat)
    requires NodesKept(m0, m1, nodes, node) && NodesKept(m1, m2, nodes, node)
    ensures NodesKept(m0, m2, nodes, node)
  {
  }

  // A word written at one node leaves the others alone.
  lemma LinkKeepsNodes(before: map<Addr, int>, n: Addr, v: int, slots: set<Addr>, nodes: set<Addr>, node: nat)
    requires SlotsApart(slots, node) && n in slots && PartOf(nodes, slots) && n !in nodes && node > 0
    ensures NodesKept(before, before[n := v], nodes, node)
  {
    forall p: Addr, a: Addr | p in nodes && p <= a < p + node && a in before
      ensures a != n
    {
      assert p in slots;
    }
  }

  lemma RegionKeepsNodes(before: map<Addr, int>, after: map<Addr, int>, base: nat, bytes: nat, l: Layout,
                         slots: set<Addr>, headers: set<Addr>, nodes: set<Addr>)
    requires KeptOutside(before, after, base, bytes) && SoundRegion(base, bytes, l, slots, headers)
    requires PartOf(nodes, slots)
    ensures NodesKept(before, after, nodes, l.nodeSize)
  {
    hide Layout.Granule, Divides;
    forall p: Addr, a: Addr | p in nodes && p <= a < p + l.nodeSize && a in before
      ensures a in after && after[a] == before[a]
    {
      assert p in slots;
    }
  }

  // Writing a slot's link word changes no header.
  lemma RoutedKept(before: map<Addr, int>, after: map<Addr, int>, slots: set<Addr>, headers: set<Addr>, exp: nat,
                   self: int, p: Addr, v: int)
    requires Routed(before, slots, headers, exp, self) && p in slots && after == before[p := v]
    ensures Routed(after, slots, headers, exp, self)
  {
    hide MaskBase;
  }

  // Moving the first parked node to the free list.
  lemma SplicedPartition(free: seq<Addr>, parked: seq<Addr>, held: set<Addr>, slots: set<Addr>, size: nat,
                         capacity: nat)
    requires Partition(free, parked, held, slots, size, capacity) && parked != []
    requires forall i, j :: 0 <= i < j < |parked| ==> parked[i] != parked[j]
    ensures size > 0 && parked[0] !in free && parked[0] in slots
    ensures Partition([parked[0]] + free, parked[1..], held, slots, size - 1, capacity)
  {
    var rest := parked[1..];
    var first: Addr := parked[0];
    assert first in parked && first in slots && first !in free;
    forall p: Addr | p in parked && p != first
      ensures p in rest
    {
      var i :| 0 <= i < |parked| && parked[i] == p;
      assert rest[i - 1] == p;
    }
    assert parked[0] !in rest;
  }

  // A held node goes back to the free list ...
  lemma FreedPartition(free: seq<Addr>, parked: seq<Addr>, held: set<Addr>, slots: set<Addr>, size: nat, capacity: nat,
                       n: Addr)
    requires Partition(free, parked, held, slots, size, capacity) && n in held
    ensures size > 0 && n in slots && n !in free && n !in parked && PartOf(held - {n}, slots)
    ensures Partition([n] + free, parked, held - {n}, slots, size - 1, capacity)
  {
    assert held == (held - {n}) + {n};
  }

  // ... or on the remote stack ...
  lemma ParkedPartition(free: seq<Addr>, parked: seq<Addr>, held: set<Addr>, slots: set<Addr>, size: nat, capacity: nat,
                        n: Addr)
    requires Partition(free, parked, held, slots, size, capacity) && n in held
    ensures n in slots && n !in free && n !in parked && PartOf(held - {n}, slots)
    ensures Partition(free, [n] + parked, held - {n}, slots, size, capacity)
  {
    assert held == (held - {n}) + {n};
  }

  // ... and the first free one to a user.
  lemma PoppedPartition(free: seq<Addr>, parked: seq<Addr>, held: set<Addr>, slots: set<Addr>, size: nat, capacity: nat)
    requires Partition(free, parked, held, slots, size, capacity) && free != []
    requires forall i, j :: 0 <= i < j < |free| ==> free[i] != free[j]
    ensures free[0] in slots && free[0] !in held
    ensures Partition(free[1..], parked, held + {free[0]}, slots, size + 1, capacity)
  {
    var first: Addr := free[0];
    var rest := free[1..];
    assert first in free;
    forall p: Addr
      ensures p in rest <==> p in free && p != first
    {
      if p in free && p != first {
        var i :| 0 <= i < |free| && free[i] == p;
        assert rest[i - 1] == p;
      }
    }
  }

  lemma PopKeeps(mem: map<Addr, int>, head: Addr, free: seq<Addr>, parked: seq<Addr>, held: set<Addr>, slots: set<Addr>,
                 size: nat, capacity: nat)
    requires Chain(mem, head, free) && Partition(free, parked, held, slots, size, capacity)
    ensures free != [] ==>
              && free[0] in slots && free[0] !in held
              && Partition(free[1..], parked, held + {free[0]}, slots, size + 1, capacity)
  {
    hide Partition;
    ChainPop(mem, head, free);
    if free != [] {
      PoppedPartition(free, parked, held, slots, size, capacity);
    }
  }

  lemma SlotPositive(mem: map<Addr, int>, slots: set<Addr>, headers: set<Addr>, exp: nat, self: int, p: Addr)
    requires Routed(mem, slots, headers, exp, self) && p in slots
    ensures p > 0
  {
    hide MaskBase;
  }

  ghost function NodeSet(g: Grid, base: nat, n: nat): set<Addr>
    requires g.per > 0
  {
    set i: nat | i < n :: g.At(base, i)
  }

  ghost function HeaderSet(g: Grid, base: nat, n: nat): set<Addr> {
    set k: nat | k < n :: g.Header(base, k)
  }

  lemma {:induction false} SeedsAreNodes(g: Grid, base: nat, n: nat, p: Addr)
    requires g.per > 0
    ensures p in Seeds(g, base, n) <==> p in NodeSet(g, base, n)
  {
    if n == 0 {
    } else {
      SeedsAreNodes(g, base, n - 1, p);
      if p in NodeSet(g, base, n) {
        var i: nat :| i < n && p == g.At(base, i);
        assert i < n - 1 ==> p in NodeSet(g, base, n - 1);
      }
    }
  }

  ghost predicate KeptOutside(before: map<Addr, int>, after: map<Addr, int>, base: nat, bytes: nat) {
    forall a: Addr {:trigger after[a]} {:trigger a in after} :: a in before && !(base <= a < base + bytes) ==>
      a in after && after[a] == before[a]
  }

  ghost predicate KeptBut(before: map<Addr, int>, after: map<Addr, int>, changed: set<Addr>) {
    forall a: Addr {:trigger after[a]} {:trigger a in after} :: a in before && a !in changed ==>
      a in after && after[a] == before[a]
  }

  lemma HeaderInside(g: Grid, base: nat, n: nat, k: nat)
    requires k < n && g.granule >= GRANULE_HEADER
    ensures base <= g.Header(base, k) && g.Header(base, k) + GRANULE_HEADER <= base + n * g.granule
  {
    Steps(k, n, g.granule);
    MulMonotone(0, k, g.granule);
  }

  lemma HeaderSetStep(g: Grid, base: nat, k: nat)
    requires g.granule > 0
    ensures forall h: Addr :: h in HeaderSet(g, base, k + 1) <==> h in HeaderSet(g, base, k) || h == g.Header(base, k)
    ensures g.Header(base, k) !in HeaderSet(g, base, k)
  {
    if g.Header(base, k) in HeaderSet(g, base, k) {
      var j: nat :| j < k && g.Header(base, j) == g.Header(base, k);
      HeadersApart(g, base, j, k);
    }
  }

  lemma NodeSetStep(g: Grid, base: nat, i: nat)
    requires g.per > 0
    ensures forall p: Addr :: p in NodeSet(g, base, i + 1) <==> p in NodeSet(g, base, i) || p == g.At(base, i)
  {
  }

  lemma NewSeed(g: Grid, base: nat, i: nat, free: seq<Addr>)
    requires g.Ok() && g.At(base, i) !in free
    ensures g.At(base, i) !in Seeds(g, base, i) + free
  {
    SeedsAreNodes(g, base, i, g.At(base, i));
    if g.At(base, i) in NodeSet(g, base, i) {
      var j: nat :| j < i && g.At(base, j) == g.At(base, i);
      NodesApart(g, base, i, j);
    }
  }

  lemma KeptTwice(m0: map<Addr, int>, m1: map<Addr, int>, m2: map<Addr, int>, base: nat, bytes: nat)
    requires KeptOutside(m0, m1, base, bytes) && KeptOutside(m1, m2, base, bytes)
    ensures KeptOutside(m0, m2, base, bytes)
  {
    forall a: Addr | a in m0 && !(base <= a < base + bytes)
      ensures a in m2 && m2[a] == m0[a]
    {
      assert a in m1 && m1[a] == m0[a];
    }
  }

  lemma GranuleWords(l: Layout)
    requires l.Ok()
    ensures GridOf(l).Ok() && IsWord(GridOf(l).granule) && IsWord(GridOf(l).per)
  {
    var e := GranuleShape(l);
    GridOk(l);
    var g := GridOf(l);
    assert g.granule <= Pow2(63);
    hide Layout.Granule, Layout.PerGranule, Layout.HeaderOffset, Layout.NodeAlign, Layout.PageSize;
    Pow2Of64();
    PerBound(g);
  }

  lemma PerBound(g: Grid)
    requires g.Ok()
    ensures g.per <= g.granule
  {
    MulMonotone(1, g.node, g.per);
    assert 1 * g.per == g.per && g.node * g.per == g.per * g.node;
  }

  // The free list and the remote stack lie outside a fresh region.
  lemma ListOutside(m0: map<Addr, int>, m1: map<Addr, int>, free: seq<Addr>, parked: seq<Addr>, held: set<Addr>,
                    slots: set<Addr>, size: nat, capacity: nat,
                    s: seq<Addr>, head: Addr, base: nat, bytes: nat, l: Layout, headers: set<Addr>)
    requires Partition(free, parked, held, slots, size, capacity) && (s == free || s == parked)
    requires SoundRegion(base, bytes, l, slots, headers) && KeptOutside(m0, m1, base, bytes)
    requires Chain(m0, head, s) && l.nodeSize > 0
    ensures Chain(m1, head, s)
    ensures forall p: Addr :: p in s ==> !(base <= p < base + bytes)
  {
    hide Chain, Layout.Granule;
    forall p: Addr | p in s
      ensures p in slots && !(base <= p < base + bytes)
    {
    }
    ChainFrame(m0, m1, head, s);
  }

  lemma RoutedOutside(m0: map<Addr, int>, m1: map<Addr, int>, slots: set<Addr>, headers: set<Addr>, exp: nat, self: int,
                      base: nat, bytes: nat, l: Layout)
    requires Routed(m0, slots, headers, exp, self) && SoundRegion(base, bytes, l, slots, headers)
    requires KeptOutside(m0, m1, base, bytes)
    ensures Routed(m1, slots, headers, exp, self)
  {
    hide MaskBase, Layout.Granule;
  }

  // The new slots route to the new headers.
  lemma NewSlotRouted(l: Layout, exp: nat, base: nat, count: nat, i: nat)
    requires Laid(l, exp) && Divides(l.Granule(), base) && base > 0 && i < count
    ensures var g := GridOf(l);
            && g.At(base, i) > 0
            && MaskBase(g.At(base, i), exp) in HeaderSet(g, base, g.GranuleCount(count))
            && (forall k: nat :: g.At(base, i) != g.Header(base, k))
  {
    hide Layout.Granule, Layout.PerGranule, Layout.HeaderOffset, Layout.NodeAlign, Layout.PageSize, Pow2, MaskBase;
    hide Divides;
    var g := GridOf(l);
    var e := MaskFindsGranule(l, base, i);
    ExponentOrder(e, exp);
    ExponentOrder(exp, e);
    WithinChunk(g, base, count, i, 0);
    assert g.Header(base, i / g.per) == base + (i / g.per) * g.granule;
    forall k: nat
      ensures g.At(base, i) != g.Header(base, k)
    {
      HeaderFreeOfNodes(g, base, i, k);
    }
  }

  lemma RoutedNew(m1: map<Addr, int>, m2: map<Addr, int>, slots: set<Addr>, headers: set<Addr>, exp: nat, self: int,
                  l: Layout, base: nat, count: nat, bytes: nat)
    requires Laid(l, exp) && Routed(m1, slots, headers, exp, self) && SoundRegion(base, bytes, l, slots, headers)
    requires bytes == GridOf(l).GranuleCount(count) * GridOf(l).granule
    requires forall h: Addr :: h in HeaderSet(GridOf(l), base, GridOf(l).GranuleCount(count)) ==>
               h in m1 && m1[h] == self
    requires KeptBut(m1, m2, NodeSet(GridOf(l), base, count))
    ensures Routed(m2, slots + NodeSet(GridOf(l), base, count),
                headers + HeaderSet(GridOf(l), base, GridOf(l).GranuleCount(count)), exp, self)
  {
    hide MaskBase, Pow2, Divides, Layout.Granule, Layout.PerGranule, Layout.HeaderOffset;
    var g := GridOf(l);
    var gc := g.GranuleCount(count);
    forall p: Addr | p in NodeSet(g, base, count)
      ensures p > 0 && p !in headers && base <= p < base + bytes && MaskBase(p, exp) in HeaderSet(g, base, gc)
      ensures p !in HeaderSet(g, base, gc)
    {
      var i: nat :| i < count && p == g.At(base, i);
      NewSlotRouted(l, exp, base, count, i);
      WithinChunk(g, base, count, i, 0);
    }
    forall h: Addr | h in HeaderSet(g, base, gc)
      ensures base <= h < base + bytes
    {
      var k: nat :| k < gc && h == g.Header(base, k);
      WithinChunk(g, base, count, 0, k);
    }
  }

  lemma PartitionNew(free: seq<Addr>, parked: seq<Addr>, held: set<Addr>, slots: set<Addr>, size: nat, capacity: nat,
                     l: Layout, base: nat, count: nat, bytes: nat, headers: set<Addr>)
    requires Partition(free, parked, held, slots, size, capacity) && SoundRegion(base, bytes, l, slots, headers)
    requires l.Ok() && GridOf(l).Ok() && bytes == GridOf(l).GranuleCount(count) * GridOf(l).granule
    ensures Partition(Seeds(GridOf(l), base, count) + free, parked, held, slots + NodeSet(GridOf(l), base, count),
                size, capacity + count)
  {
    hide Divides, Layout.Granule, Layout.PerGranule, Layout.HeaderOffset;
    var g := GridOf(l);
    forall p: Addr
      ensures p in Seeds(g, base, count) <==> p in NodeSet(g, base, count)
      ensures p in NodeSet(g, base, count) ==> base <= p < base + bytes
    {
      SeedsAreNodes(g, base, count, p);
      if p in NodeSet(g, base, count) {
        var i: nat :| i < count && p == g.At(base, i);
        WithinChunk(g, base, count, i, 0);
      }
    }
  }

  lemma CoveredNew(l: Layout, chunks: seq<Slots>, slots: set<Addr>, c: Slots)
    requires l.Ok() && Covered(l, chunks, slots)
    ensures Covered(l, chunks + [c], slots + NodeSet(GridOf(l), c.base, c.count))
  {
    hide Layout.Granule, Layout.PerGranule, Layout.HeaderOffset;
    var g, all := GridOf(l), chunks + [c];
    forall p: Addr
      ensures p in slots + NodeSet(g, c.base, c.count) <==> exists k :: 0 <= k < |all| && IsNodeOf(g, all[k], p)
    {
      ContainsIsMembership(l, c.base, c.count, p);
      assert p in NodeSet(g, c.base, c.count) <==> IsNodeOf(g, all[|chunks|], p);
      if p in slots {
        var k :| 0 <= k < |chunks| && IsNodeOf(g, chunks[k], p);
        assert all[k] == chunks[k];
      }
      if exists k :: 0 <= k < |all| && IsNodeOf(g, all[k], p) {
        var k :| 0 <= k < |all| && IsNodeOf(g, all[k], p);
        assert k < |chunks| ==> IsNodeOf(g, chunks[k], p);
      }
    }
  }

  /** The source hands out aligned regions, each apart from the chunks there are and
      from what it hands out later. */
  ghost predicate SoundSource(source: Source, calls: nat, l: Layout, chunks: seq<Slots>)
    requires l.nodeSize > 0 && l.PerGranule() > 0
  {
    && (forall k: nat, n: nat {:trigger source(k, n)} :: k >= calls && source(k, n).Some? ==>
          source(k, n).value > 0 && Divides(l.Granule(), source(k, n).value))
    && (forall k: nat, n: nat, j: nat {:trigger source(k, n), chunks[j]} :: k >= calls && source(k, n).Some? && j < |chunks| ==>
          RegionsApart(source(k, n).value, n, chunks[j].base, RegionBytes(GridOf(l), chunks[j])))
    && (forall k: nat, n: nat, j: nat, m: nat {:trigger source(k, n), source(j, m)} ::
          calls <= k < j && source(k, n).Some? && source(j, m).Some? ==>
          RegionsApart(source(k, n).value, n, source(j, m).value, m))
  }

  /** A region that is aligned and meets no node and no header. */
  ghost predicate SoundRegion(base: nat, bytes: nat, l: Layout, slots: set<Addr>, headers: set<Addr>) {
    && base > 0 && Divides(l.Granule(), base)
    && (forall p: Addr :: p in slots ==> p + l.nodeSize <= base || base + bytes <= p)
    && (forall h: Addr :: h in headers ==> !(base <= h < base + bytes))
  }

  /** The slots and headers are those of the chunks, apart from each other and from
      whatever memory is still to come. */
  ghost predicate Placed(l: Layout, exp: nat, source: Source, calls: nat, chunks: seq<Slots>, slots: set<Addr>,
                         headers: set<Addr>) {
    && Laid(l, exp)
    && Covered(l, chunks, slots) && Headed(GridOf(l), chunks, headers)
    && Inside(GridOf(l), chunks, slots, headers) && SlotsApart(slots, l.nodeSize)
    && SoundSource(source, calls, l, chunks)
  }

  lemma PlacedApart(l: Layout, exp: nat, source: Source, calls: nat, chunks: seq<Slots>, slots: set<Addr>,
                    headers: set<Addr>)
    requires Placed(l, exp, source, calls, chunks, slots, headers)
    ensures l.nodeSize > 0 && l.Ok() && GridOf(l).Ok() && Laid(l, exp) && SlotsApart(slots, l.nodeSize)
  {
    hide Covered, Headed, Inside, SoundSource, SlotsApart, Layout.Granule;
  }

  lemma PlacedSlots(l: Layout, exp: nat, source: Source, calls: nat, chunks: seq<Slots>, slots: set<Addr>,
                    headers: set<Addr>)
    requires Placed(l, exp, source, calls, chunks, slots, headers)
    ensures l.nodeSize > 0 && SlotsApart(slots, l.nodeSize)
  {
    PlacedApart(l, exp, source, calls, chunks, slots, headers);
  }

  lemma SoundBase(base: nat, bytes: nat, l: Layout, slots: set<Addr>, headers: set<Addr>)
    requires SoundRegion(base, bytes, l, slots, headers)
    ensures base > 0
  {
  }

  lemma SourceFits(source: Source, k: nat, l: Layout, chunks: seq<Slots>, slots: set<Addr>, headers: set<Addr>,
                   bytes: nat)
    requires l.nodeSize > 0 && l.PerGranule() > 0 && SoundSource(source, k, l, chunks)
    requires Inside(GridOf(l), chunks, slots, headers)
    ensures source(k, bytes).Some? ==> SoundRegion(source(k, bytes).value, bytes, l, slots, headers)
  {
    hide Layout.Granule, Layout.PerGranule, Divides, RegionBytes;
  }

  lemma LaterRequests(source: Source, k: nat, l: Layout, chunks: seq<Slots>, bytes: nat, c: Slots)
    requires l.nodeSize > 0 && l.PerGranule() > 0 && SoundSource(source, k, l, chunks)
    ensures SoundSource(source, k + 1, l, chunks)
    ensures source(k, bytes) == Some(c.base) && bytes == RegionBytes(GridOf(l), c) ==>
              SoundSource(source, k + 1, l, chunks + [c])
  {
    hide Layout.Granule, Layout.PerGranule, Divides, RegionBytes;
  }

  /** The reluctant source is a sound one. */
  lemma ReluctantIsSound(l: Layout)
    requires l == Layout(64, 3, 12)
    ensures l.nodeSize > 0 && l.PerGranule() > 0 && SoundSource(Reluctant(), 0, l, [])
  {
    PageOfNodes();
    hide Layout.Granule, Layout.PerGranule, Divides;
    forall k: nat
      ensures Divides(4096, PageAt(k))
    {
      PageMultiple(k + 1);
    }
  }

  lemma PageMultiple(k: nat)
    ensures Divides(4096, 4096 * k)
  {
    assert Product(4096, k) == 4096 * k;
  }

  // What the next request brings, if it is met.
  lemma NextRequest(l: Layout, exp: nat, source: Source, k: nat, chunks: seq<Slots>, slots: set<Addr>,
                    headers: set<Addr>, count: nat, bytes: nat)
    requires Placed(l, exp, source, k, chunks, slots, headers) && l.nodeSize > 0 && GridOf(l).Ok()
    requires bytes == GridOf(l).GranuleCount(count) * GridOf(l).granule
    ensures Placed(l, exp, source, k + 1, chunks, slots, headers)
    ensures source(k, bytes).Some? ==>
              var c := Slots(source(k, bytes).value, count);
              && SoundRegion(c.base, bytes, l, slots, headers)
              && Placed(l, exp, source, k + 1, chunks + [c], slots + NodeSet(GridOf(l), c.base, count),
                     headers + HeaderSet(GridOf(l), c.base, GridOf(l).GranuleCount(count)))
  {
    hide Layout.Granule, Layout.PerGranule, Layout.HeaderOffset, Layout.NodeAlign, Layout.PageSize, Covered, Headed;
    hide Inside, SlotsApart, SoundSource, SoundRegion, Divides;
    SourceFits(source, k, l, chunks, slots, headers, bytes);
    if source(k, bytes).Some? {
      var c := Slots(source(k, bytes).value, count);
      LaterRequests(source, k, l, chunks, bytes, c);
      CoveredNew(l, chunks, slots, c);
      InsideNew(l, chunks, slots, headers, c);
    } else {
      LaterRequests(source, k, l, chunks, bytes, Slots(0, count));
    }
  }

  // What a new chunk adds to the headers, the nodes, and where they lie.
  lemma InsideNew(l: Layout, chunks: seq<Slots>, slots: set<Addr>, headers: set<Addr>, c: Slots)
    requires l.Ok() && GridOf(l).Ok() && Inside(GridOf(l), chunks, slots, headers) && Headed(GridOf(l), chunks, headers)
    requires SlotsApart(slots, l.nodeSize) && SoundRegion(c.base, RegionBytes(GridOf(l), c), l, slots, headers)
    ensures var g := GridOf(l);
            var slots', headers' := slots + NodeSet(g, c.base, c.count),
              headers + HeaderSet(g, c.base, g.GranuleCount(c.count));
            Inside(g, chunks + [c], slots', headers') && SlotsApart(slots', l.nodeSize) &&
                Headed(g, chunks + [c], headers')
  {
    hide Layout.Granule, Layout.PerGranule, Layout.HeaderOffset, Divides;
    var g, all := GridOf(l), chunks + [c];
    var slots', headers' := slots + NodeSet(g, c.base, c.count),
      headers + HeaderSet(g, c.base, g.GranuleCount(c.count));
    assert all[|chunks|] == c && forall k :: 0 <= k < |chunks| ==> all[k] == chunks[k];
    forall p: Addr | p in NodeSet(g, c.base, c.count)
      ensures Within(g, c, p, g.node)
    {
      var i: nat :| i < c.count && p == g.At(c.base, i);
      WithinChunk(g, c.base, c.count, i, 0);
    }
    forall h: Addr | h in HeaderSet(g, c.base, g.GranuleCount(c.count))
      ensures Within(g, c, h, GRANULE_HEADER)
    {
      var k: nat :| k < g.GranuleCount(c.count) && h == g.Header(c.base, k);
      HeaderInside(g, c.base, g.GranuleCount(c.count), k);
    }
    NewInside(g, chunks, slots, headers, c);
    HeadedNew(g, chunks, headers, c);
    NewApart(g, slots, c);
  }

  lemma NewInside(g: Grid, chunks: seq<Slots>, slots: set<Addr>, headers: set<Addr>, c: Slots)
    requires g.Ok() && Inside(g, chunks, slots, headers)
    requires forall p: Addr :: p in NodeSet(g, c.base, c.count) ==> Within(g, c, p, g.node)
    requires forall h: Addr :: h in HeaderSet(g, c.base, g.GranuleCount(c.count)) ==> Within(g, c, h, GRANULE_HEADER)
    ensures Inside(g, chunks + [c], slots + NodeSet(g, c.base, c.count),
                headers + HeaderSet(g, c.base, g.GranuleCount(c.count)))
  {
    hide Within, Somewhere;
    var all := chunks + [c];
    forall p: Addr, bytes: nat
      ensures Somewhere(g, chunks, p, bytes) || Within(g, c, p, bytes) ==> Somewhere(g, all, p, bytes)
    {
      StillSomewhere(g, chunks, c, p, bytes);
    }
  }

  lemma StillSomewhere(g: Grid, chunks: seq<Slots>, c: Slots, p: Addr, bytes: nat)
    requires g.per > 0
    ensures Somewhere(g, chunks, p, bytes) || Within(g, c, p, bytes) ==> Somewhere(g, chunks + [c], p, bytes)
  {
    hide Within;
    var all := chunks + [c];
    if Within(g, c, p, bytes) {
      assert Within(g, all[|chunks|], p, bytes);
    }
    if Somewhere(g, chunks, p, bytes) {
      var k :| 0 <= k < |chunks| && Within(g, chunks[k], p, bytes);
      assert Within(g, all[k], p, bytes);
    }
  }

  lemma HeadedNew(g: Grid, chunks: seq<Slots>, headers: set<Addr>, c: Slots)
    requires g.Ok() && Headed(g, chunks, headers)
    ensures Headed(g, chunks + [c], headers + HeaderSet(g, c.base, g.GranuleCount(c.count)))
  {
    var all := chunks + [c];
    assert all[|chunks|] == c;
    forall h: Addr
      ensures (exists k :: 0 <= k < |all| && HeaderIn(g, all[k], h)) <==>
                (exists k :: 0 <= k < |chunks| && HeaderIn(g, chunks[k], h)) || HeaderIn(g, c, h)
    {
      if exists k :: 0 <= k < |all| && HeaderIn(g, all[k], h) {
        var k :| 0 <= k < |all| && HeaderIn(g, all[k], h);
        assert k < |chunks| ==> HeaderIn(g, chunks[k], h);
      }
      if exists k :: 0 <= k < |chunks| && HeaderIn(g, chunks[k], h) {
        var k :| 0 <= k < |chunks| && HeaderIn(g, chunks[k], h);
        assert HeaderIn(g, all[k], h);
      }
      if HeaderIn(g, c, h) {
        assert HeaderIn(g, all[|chunks|], h);
      }
    }
  }

  lemma NewApart(g: Grid, slots: set<Addr>, c: Slots)
    requires g.Ok() && SlotsApart(slots, g.node)
    requires forall p: Addr :: p in slots ==> p + g.node <= c.base || c.base + RegionBytes(g, c) <= p
    requires forall p: Addr :: p in NodeSet(g, c.base, c.count) ==> Within(g, c, p, g.node)
    ensures SlotsApart(slots + NodeSet(g, c.base, c.count), g.node)
  {
    forall p: Addr, q: Addr | p in NodeSet(g, c.base, c.count) && q in NodeSet(g, c.base, c.count) && p < q
      ensures p + g.node <= q
    {
      var i: nat :| i < c.count && p == g.At(c.base, i);
      var j: nat :| j < c.count && q == g.At(c.base, j);
      NodesApart(g, c.base, i, j);
    }
    hide RegionBytes;
  }

  lemma ClearBelowIsMask(p: nat, e: nat)
    ensures Pow2(e) > 0 && MaskBase(p, e) == p - p % Pow2(e)
  {
    ClearBelowValue(p, e);
  }

  class NodePool {
    const self: int
    const layout: Layout
    const dynamic: bool
    const source: Source
    ghost const exp: nat
    ghost const first: nat
    var mem: map<Addr, int>
    var chunks: seq<Slots>
    var freeHead: Addr
    var remoteHead: Addr
    var size: nat
    var capacity: nat
    var nextGrowth: nat
    var calls: nat
    ghost var free: seq<Addr>
    ghost var parked: seq<Addr>
    ghost var held: set<Addr>
    ghost var slots: set<Addr>
    ghost var headers: set<Addr>

    /** Lists, partition and routing. */
    ghost predicate Sound()
      reads `mem, `chunks, `freeHead, `remoteHead, `size, `capacity, `calls, `free, `parked, `held, `slots, `headers
    {
      && Placed(layout, exp, source, calls, chunks, slots, headers)
      && Chain(mem, freeHead, free) && Chain(mem, remoteHead, parked)
      && Partition(free, parked, held, slots, size, capacity)
      && Routed(mem, slots, headers, exp, self)
    }

    /** What the pool knows, apart from the memory that spells it. */
    ghost function Knows(): Core
      reads `chunks, `free, `parked, `held, `size, `capacity, `nextGrowth, `calls
    {
      Core(chunks, free, parked, held, size, capacity, nextGrowth, calls)
    }

    ghost function Where(): Site
      requires layout.nodeSize > 0
    {
      Site(GridOf(layout), dynamic, source)
    }

    lemma SiteKnown()
      requires Sound()
      ensures layout.nodeSize > 0 && layout.Ok() && SiteOk(Where()) && GridOf(layout).Ok()
    {
      hide Chain, Partition, Routed, Layout.Granule;
      PlacedApart(layout, exp, source, calls, chunks, slots, headers);
      GranuleWords(layout);
    }

    /** Growth doubles, as PoolState says. */
    ghost predicate GrowthOk()
      reads `nextGrowth, `capacity, `chunks
    {
      GrowthSound(first, chunks, capacity, nextGrowth)
    }

    ghost predicate Valid()
      reads this
    {
      Sound() && GrowthOk()
    }

    /** What a pool has, by its chunks: at least the first one doubled by every later one,
        and just that if and only if none was ever skipped. */
    lemma CapacityIsGeometric()
      requires Valid()
      ensures capacity >= first * (Pow2(|chunks|) - 1)
      ensures capacity == first * (Pow2(|chunks|) - 1) <==> Doubling(first, chunks)
    {
      hide Sound;
      CapacityByChunks(first, chunks);
    }

    // A pool without any chunk.
    constructor (self: int, layout: Layout, dynamic: bool, source: Source, poolSize: nat, ghost exp: nat)
      requires Laid(layout, exp) && HasSingleBit(poolSize) && IsWord(poolSize)
      requires SoundSource(source, 0, layout, [])
      ensures Valid() && slots == {} && headers == {} && Knows() == LazyCore(poolSize)
      ensures this.self == self && this.layout == layout && this.dynamic == dynamic && this.source == source
      ensures this.exp == exp && first == poolSize
    {
      this.self, this.layout, this.dynamic, this.source, this.exp := self, layout, dynamic, source, exp;
      this.first, nextGrowth := poolSize, poolSize;
      mem, chunks, freeHead, remoteHead, size, capacity, calls := map[], [], 0, 0, 0, 0, 0;
      free, parked, held, slots, headers := [], [], {}, {}, {};
      new;
      hide Layout.Granule, MaskBase;
    }

    /** Both constructors; None where the source throws: for a size that is no power of
        two, and where the eager one cannot have its chunk. */
    static method Create(self: int, layout: Layout, dynamic: bool, source: Source, poolSize: nat, eager: bool)
      returns (r: Option<NodePool>)
      requires layout.Ok() && IsWord(poolSize) && layout.PerGranule() > 0 && SoundSource(source, 0, layout, [])
      ensures SiteOk(Site(GridOf(layout), dynamic, source))
      ensures r.Some? <==> HasSingleBit(poolSize) && (eager ==>
                  !Refused(Site(GridOf(layout), dynamic, source), 0, poolSize))
      ensures r.Some? ==>
                && fresh(r.value) && r.value.Valid() && r.value.first == poolSize
                && r.value.self == self && r.value.layout == layout && r.value.dynamic == dynamic &&
                   r.value.source == source
                && r.value.Knows() == if eager then EagerCore(r.value.Where(), poolSize).0 else LazyCore(poolSize)
    {
      hide Layout.Granule, Layout.HeaderOffset, Layout.NodeAlign, Layout.PageSize, Layout.PerGranule, SoundSource;
      hide BitCeil, Pow2, Refused;
      GranuleWords(layout);
      if !HasSingleBit(poolSize) {
        return None;
      }
      ghost var e := GranuleShape(layout);
      GridOk(layout);
      var pool := new NodePool(self, layout, dynamic, source, poolSize, e);
      if eager {
        var added := pool.AddFirstChunk();
        if !added {
          return None;
        }
      }
      r := Some(pool);
    }

    /** From any slot's address, masking and reading the header there names this pool. */
    lemma RoutesHome(p: Addr)
      requires Valid() && p in slots
      ensures p > 0 && MaskBase(p, exp) in mem && mem[MaskBase(p, exp)] == self
      ensures MaskBase(p, exp) == p - p % layout.Granule()
    {
      hide MaskBase, Layout.Granule;
      ClearBelowIsMask(p, exp);
    }

    /** `owns`: exactly the addresses of slots are owned. */
    method Owns(p: Addr) returns (owns: bool)
      requires Valid()
      ensures owns <==> p in slots
    {
      hide Layout.Granule, Layout.HeaderOffset, Layout.PerGranule, Chain, Partition, Routed, GrowthSound, IsNodeOf;
      for k := 0 to |chunks|
        invariant forall j :: 0 <= j < k ==> !IsNodeOf(GridOf(layout), chunks[j], p)
      {
        if IsNodeOf(GridOf(layout), chunks[k], p) {
          return true;
        }
      }
      owns := false;
    }

    method PushFreeNode(n: Addr)
      requires Chain(mem, freeHead, free) && n !in free && n != 0
      modifies `mem, `freeHead, `free
      ensures Chain(mem, freeHead, free) && free == [n] + old(free)
      ensures mem == old(mem)[n := old(freeHead)] && freeHead == n
    {
      ChainPush(mem, freeHead, free, n);
      mem := mem[n := freeHead];
      freeHead := n;
      free := [n] + free;
    }

    method PopFreeNode() returns (n: Addr)
      requires Chain(mem, freeHead, free)
      modifies `freeHead, `free
      ensures Chain(mem, freeHead, free)
      ensures n == 0 <==> old(free) == []
      ensures n == 0 ==> free == [] && freeHead == 0
      ensures n != 0 ==> old(free) != [] && n == old(free)[0] && free == old(free)[1..]
      ensures n != 0 ==> forall p :: p in free <==> p in old(free) && p != n
    {
      ChainPop(mem, freeHead, free);
      if freeHead == 0 {
        return 0;
      }
      n := freeHead;
      freeHead := mem[n];
      free := free[1..];
    }

    /** Lays out a chunk: headers in every granule, this pool stamped into them, every
        slot pushed on the free list. False stands for the exceptions of the source,
        and then nothing has changed. */
    method AddChunk(slotCount: nat) returns (added: bool)
      requires Sound() && IsWord(slotCount)
      modifies `mem, `chunks, `freeHead, `capacity, `calls, `free, `slots, `headers
      ensures Sound() && SiteOk(Where())
      ensures (Knows(), added) == AddedChunk(Where(), old(Knows()), slotCount)
      ensures added <==> !Refused(Where(), old(calls), slotCount)
      ensures !added ==> mem == old(mem) && slots == old(slots) && headers == old(headers)
      ensures added ==> slots == old(slots) + NodeSet(GridOf(layout), chunks[|old(chunks)|].base, slotCount)
      ensures NodesKept(old(mem), mem, old(slots), layout.nodeSize)
    {
      hide Chain, Partition, Routed, MaskBase, Pow2, Divides, GrowthOk, GrowthSound, Placed, NodesKept, SoundRegion;
      hide Laid, Refused, SlotsApart;
      hide Layout.Granule, Layout.HeaderOffset, Layout.NodeAlign, Layout.PageSize, Layout.PerGranule, Seeds;
      SiteKnown();
      SameNodes(mem, slots, layout.nodeSize);
      GridOk(layout);
      PlacedApart(layout, exp, source, calls, chunks, slots, headers);
      var g := GridOf(layout);
      var padded := CheckedAdd(slotCount, g.per - 1);
      if padded.None? {
        return false;
      }
      var granuleCount := padded.value / g.per;
      GranulesAreWord(padded.value, g.per);
      var bytes := CheckedMul(granuleCount, g.granule);
      if bytes.None? {
        return false;
      }
      var base := source(calls, bytes.value);
      NextRequest(layout, exp, source, calls, chunks, slots, headers, slotCount, bytes.value);
      calls := calls + 1;
      if base.None? {
        return false;
      }
      LayOut(base.value, slotCount, granuleCount, bytes.value);
      capacity := capacity + slotCount;
      added := true;
    }

    // The region becomes a chunk: its headers are written and stamped, its slots freed.
    method LayOut(base: nat, slotCount: nat, granuleCount: nat, ghost bytes: nat)
      requires Laid(layout, exp) && Chain(mem, freeHead, free) && Chain(mem, remoteHead, parked)
      requires Partition(free, parked, held, slots, size, capacity) && Routed(mem, slots, headers, exp, self)
      requires SoundRegion(base, bytes, layout, slots, headers)
      requires granuleCount == GridOf(layout).GranuleCount(slotCount) && bytes == granuleCount * GridOf(layout).granule
      modifies `mem, `chunks, `freeHead, `free, `slots, `headers
      ensures Chain(mem, freeHead, free) && Chain(mem, remoteHead, parked)
      ensures chunks == old(chunks) + [Slots(base, slotCount)]
      ensures free == Seeds(GridOf(layout), base, slotCount) + old(free)
      ensures slots == old(slots) + NodeSet(GridOf(layout), base, slotCount)
      ensures headers == old(headers) + HeaderSet(GridOf(layout), base, granuleCount)
      ensures Partition(free, parked, held, slots, size, capacity + slotCount) && Routed(mem, slots, headers, exp, self)
      ensures NodesKept(old(mem), mem, old(slots), layout.nodeSize)
    {
      hide Chain, Partition, Routed, MaskBase, Pow2, Divides, NodesKept, SoundRegion, KeptOutside, KeptBut, Seeds;
      hide Layout.Granule, Layout.HeaderOffset, Layout.NodeAlign, Layout.PageSize, Layout.PerGranule;
      var g := GridOf(layout);
      GridOk(layout);
      ghost var m0, free0 := mem, free;
      SoundBase(base, bytes, layout, slots, headers);
      WriteHeaders(g, base, granuleCount);
      ghost var half := mem;
      StampOwner(g, base, granuleCount);
      ghost var m1 := mem;
      KeptTwice(m0, half, m1, base, bytes);
      ListOutside(m0, m1, free, parked, held, slots, size, capacity, free, freeHead, base, bytes, layout, headers);
      ListOutside(m0, m1, free, parked, held, slots, size, capacity, parked, remoteHead, base, bytes, layout, headers);
      RoutedOutside(m0, m1, slots, headers, exp, self, base, bytes, layout);
      SeedChunk(g, base, slotCount, bytes);
      KeptTwice(m0, m1, mem, base, bytes);
      RegionKeepsNodes(m0, mem, base, bytes, layout, slots, headers, slots);
      RoutedNew(m1, mem, slots, headers, exp, self, layout, base, slotCount, bytes);
      PartitionNew(free0, parked, held, slots, size, capacity, layout, base, slotCount, bytes, headers);
      chunks := chunks + [Slots(base, slotCount)];
      slots := slots + NodeSet(g, base, slotCount);
      headers := headers + HeaderSet(g, base, granuleCount);
    }

    // The chunk's constructor: an unowned, tagged header in every granule.
    method WriteHeaders(g: Grid, base: nat, granuleCount: nat)
      requires g.Ok() && g.granule >= GRANULE_HEADER
      modifies `mem
      ensures KeptOutside(old(mem), mem, base, granuleCount * g.granule)
    {
      for k := 0 to granuleCount
        invariant KeptOutside(old(mem), mem, base, granuleCount * g.granule)
      {
        HeaderInside(g, base, granuleCount, k);
        mem := mem[g.Header(base, k) := 0];
        mem := mem[g.Header(base, k) + TAG := GRANULE_TAG];
      }
    }

    // `stamp_owner`: this pool's address into the header of every granule.
    method StampOwner(g: Grid, base: nat, granuleCount: nat)
      requires g.Ok() && g.granule >= GRANULE_HEADER
      modifies `mem
      ensures KeptOutside(old(mem), mem, base, granuleCount * g.granule)
      ensures forall h: Addr :: h in HeaderSet(g, base, granuleCount) ==> h in mem && mem[h] == self
    {
      for k := 0 to granuleCount
        invariant KeptOutside(old(mem), mem, base, granuleCount * g.granule)
        invariant forall h: Addr :: h in HeaderSet(g, base, k) ==> h in mem && mem[h] == self
      {
        HeaderInside(g, base, granuleCount, k);
        HeaderSetStep(g, base, k);
        mem := mem[g.Header(base, k) := self];
      }
    }

    // Every slot of the chunk goes on the free list.
    method SeedChunk(g: Grid, base: nat, count: nat, ghost bytes: nat)
      requires Chain(mem, freeHead, free) && Chain(mem, remoteHead, parked) && g.Ok() && base > 0
      requires bytes == g.GranuleCount(count) * g.granule
      requires forall p: Addr :: p in free ==> !(base <= p < base + bytes)
      requires forall p: Addr :: p in parked ==> !(base <= p < base + bytes)
      modifies `mem, `freeHead, `free
      ensures Chain(mem, freeHead, free) && Chain(mem, remoteHead, parked)
      ensures free == Seeds(g, base, count) + old(free)
      ensures KeptBut(old(mem), mem, NodeSet(g, base, count)) && KeptOutside(old(mem), mem, base, bytes)
    {
      hide Chain;
      for i := 0 to count
        invariant Chain(mem, freeHead, free) && Chain(mem, remoteHead, parked)
        invariant free == Seeds(g, base, i) + old(free)
        invariant KeptBut(old(mem), mem, NodeSet(g, base, i)) && KeptOutside(old(mem), mem, base, bytes)
      {
        WithinChunk(g, base, count, i, 0);
        NewSeed(g, base, i, old(free));
        NodeSetStep(g, base, i);
        ghost var m := mem;
        PushFreeNode(g.At(base, i));
        ChainFrame(m, mem, remoteHead, parked);
        assert free == Seeds(g, base, i + 1) + old(free);
      }
    }

    /** The first chunk, made by the eager constructor and by the first allocation
        of a lazily constructed pool alike. */
    method AddFirstChunk() returns (added: bool)
      requires Valid() && chunks == [] && free == []
      modifies `mem, `chunks, `freeHead, `capacity, `calls, `free, `slots, `headers
      ensures Valid() && SiteOk(Where()) && IsWord(nextGrowth)
      ensures (Knows(), added) == AddedChunk(Where(), old(Knows()), nextGrowth)
      ensures added <==> !Refused(Where(), old(calls), nextGrowth)
      ensures added ==> |free| == first > 0
      ensures |chunks| == |old(chunks)| + (if added then 1 else 0) && held == old(held)
      ensures !added ==> chunks == old(chunks)
      ensures NodesKept(old(mem), mem, old(slots), layout.nodeSize)
    {
      hide Sound, Laid, Chain, Partition, Routed, Covered, MaskBase, Pow2, Divides, GrowthSound, SoundSource, NodesKept;
      hide Refused;
      hide Layout.Granule, Layout.HeaderOffset, Layout.NodeAlign, Layout.PageSize, Layout.PerGranule;
      NextGrowthIsWord();
      ghost var chunks0, next := chunks, nextGrowth;
      added := AddChunk(nextGrowth);
      if added {
        GrowthMore(first, chunks0, chunks, 0, next);
      }
    }

    // `_grow`: the next chunk's size is doubled before the chunk is asked for.
    method Grow() returns (grown: bool)
      requires Valid() && dynamic && chunks != []
      modifies `mem, `chunks, `freeHead, `capacity, `nextGrowth, `calls, `free, `slots, `headers
      ensures Valid() && SiteOk(Where()) && IsWord(old(nextGrowth))
      ensures (Knows(), grown) == Grown(Where(), old(Knows()))
      ensures grown <==> !GrowRefused(Where(), old(calls), old(nextGrowth))
      ensures grown ==> nextGrowth == 2 * old(nextGrowth) && nextGrowth > 0
      ensures grown ==> capacity == old(capacity) + nextGrowth && |free| == |old(free)| + nextGrowth
      ensures |chunks| == |old(chunks)| + (if grown then 1 else 0)
      ensures !grown ==> chunks == old(chunks)
      ensures NodesKept(old(mem), mem, old(slots), layout.nodeSize)
    {
      hide AddedChunk, Seeds, ChunkBytes, GridOf;
      hide Sound, Laid, Chain, Partition, Routed, Covered, MaskBase, Pow2, Divides, GrowthSound, SoundSource, NodesKept;
      hide Refused;
      hide Layout.Granule, Layout.HeaderOffset, Layout.NodeAlign, Layout.PageSize, Layout.PerGranule;
      NextGrowthIsWord();
      SiteKnown();
      SameNodes(mem, slots, layout.nodeSize);
      var doubled := CheckedMul(nextGrowth, 2);
      if doubled.None? {
        return false;
      }
      ghost var chunks0, capacity0, next := chunks, capacity, nextGrowth;
      nextGrowth := Max(1, doubled.value);
      grown := AddChunk(nextGrowth);
      if grown {
        GrowthMore(first, chunks0, chunks, capacity0, next);
      } else {
        GrowthWaits(first, chunks, capacity, next);
      }
    }

    lemma NextGrowthIsWord()
      requires Valid()
      ensures IsWord(nextGrowth) && nextGrowth > 0 && (capacity == 0 <==> chunks == []) && GridOf(layout).Ok()
    {
      HasSlots(first, chunks, capacity, nextGrowth);
    }

    /** Takes a node. The parked nodes are spliced in only when the free list is empty,
        a chunk is added only when they do not help, and failure is genuine: a fixed
        pool answers null only when every slot is with a user, and an exception means
        that memory was needed and refused. */
    method Allocate() returns (out: Outcome)
      requires Valid()
      modifies `mem, `chunks, `freeHead, `remoteHead, `size, `capacity, `nextGrowth, `calls, `free, `parked, `held,
               `slots, `headers
      ensures Valid() && SiteOk(Where()) && IsWord(old(nextGrowth))
      ensures (Knows(), out) == Allocated(Where(), old(Knows()))
      ensures out == BadAlloc <==> Throws(Where(), old(Knows()))
      ensures out == Null <==> old(free) == [] && old(parked) == [] && old(capacity) > 0 && !dynamic
      ensures out.Got? ==> out.n in slots && out.n !in old(held) && held == old(held) + {out.n}
      ensures old(free) != [] ==> mem == old(mem) && chunks == old(chunks) && slots == old(slots)
      ensures !out.Got? ==> held == old(held)
      ensures chunks != old(chunks) ==> old(free) == [] && old(parked) == [] && |chunks| == |old(chunks)| + 1
      ensures NodesKept(old(mem), mem, old(held), layout.nodeSize)
    {
      hide Sound, Laid, Partition, Chain, Routed, Covered, MaskBase, Pow2, Divides, GrowthSound, SoundSource;
      hide GrowRefused, Refused, NodesKept, AddedChunk;
      hide Layout.Granule, Layout.HeaderOffset, Layout.NodeAlign, Layout.PageSize, Layout.PerGranule;
      NextGrowthIsWord();
      SiteKnown();
      FailureIsGenuine(Where(), Knows());
      SameNodes(mem, held, layout.nodeSize);
      ghost var held0, mem0 := held, mem;
      HeldAreSlots();
      var n := Pop();
      if n == 0 {
        var drained := DrainRemote();
        ReversedLength(old(parked), |old(parked)|);
        if drained {
          n := Pop();
        }
        if n == 0 {
          if capacity == 0 && nextGrowth != 0 {
            ghost var mem1 := mem;
            var added := AddFirstChunk();
            FewerNodes(mem1, mem, old(slots), held0, layout.nodeSize);
            NodesTwice(mem0, mem1, mem, held0, layout.nodeSize);
            if !added {
              return BadAlloc;
            }
            n := Pop();
          }
        }
        if n == 0 {
          if !dynamic {
            return Null;
          }
          ghost var mem1 := mem;
          var grown := Grow();
          FewerNodes(mem1, mem, old(slots), held0, layout.nodeSize);
          NodesTwice(mem0, mem1, mem, held0, layout.nodeSize);
          if !grown {
            return BadAlloc;
          }
          n := Pop();
        }
      }
      out := Got(n);
    }

    lemma HeldAreSlots()
      requires Sound()
      ensures PartOf(held, slots)
    {
      hide Placed, Chain, Routed;
    }

    // `_pop_free_node`, and for a node it yields the step with which `allocate` ends.
    method Pop() returns (n: Addr)
      requires Valid()
      modifies `freeHead, `free, `held, `size
      ensures Valid()
      ensures n == 0 <==> old(free) == []
      ensures n == 0 ==> free == [] && held == old(held) && size == old(size)
      ensures n != 0 ==> n == old(free)[0] && free == old(free)[1..] && n in slots && n !in old(held)
      ensures n != 0 ==> held == old(held) + {n} && size == old(size) + 1
      ensures Knows() == Popped(old(Knows()))
    {
      hide Partition, Placed, Chain, Routed, GrowthOk, GrowthSound;
      PopKeeps(mem, freeHead, free, parked, held, slots, size, capacity);
      n := PopFreeNode();
      if n != 0 {
        size := size + 1;
        held := held + {n};
      }
    }

    /** Returns a node to the free list. */
    method Deallocate(n: Addr)
      requires Valid() && (n != 0 ==> n in held)
      modifies `mem, `freeHead, `free, `held, `size
      ensures Valid()
      ensures if n == 0 then free == old(free) && held == old(held) && size == old(size)
              else free == [n] + old(free) && held == old(held) - {n} && size == old(size) - 1
      ensures Knows() == Freed(old(Knows()), n)
      ensures mem == if n == 0 then old(mem) else old(mem)[n := old(freeHead)]
      ensures NodesKept(old(mem), mem, held, layout.nodeSize)
    {
      hide GrowthOk, GrowthSound, Partition, Placed, SlotsApart, NodesKept, LinkOk, Routed, Chain;
      SameNodes(mem, held, layout.nodeSize);
      if n == 0 {
        return;
      }
      PlacedSlots(layout, exp, source, calls, chunks, slots, headers);
      FreedPartition(free, parked, held, slots, size, capacity, n);
      SlotPositive(mem, slots, headers, exp, self, n);
      ghost var m0 := mem;
      LinkKeepsNodes(mem, n, freeHead, slots, held - {n}, layout.nodeSize);
      PushFreeNode(n);
      held := held - {n};
      size := size - 1;
      ChainFrame(m0, mem, remoteHead, parked);
      RoutedKept(m0, mem, slots, headers, exp, self, n, old(freeHead));
    }

    /** Parks a node on the remote stack; nothing of the owner's counters changes. */
    method RemotePush(n: Addr)
      requires Valid() && n in held
      modifies `mem, `remoteHead, `parked, `held
      ensures Valid()
      ensures parked == [n] + old(parked) && held == old(held) - {n}
      ensures Knows() == Parked(old(Knows()), n) && mem == old(mem)[n := old(remoteHead)]
      ensures NodesKept(old(mem), mem, held, layout.nodeSize)
    {
      hide GrowthOk, GrowthSound, Partition, Placed, SlotsApart, NodesKept, LinkOk, Routed, Chain;
      PlacedSlots(layout, exp, source, calls, chunks, slots, headers);
      ParkedPartition(free, parked, held, slots, size, capacity, n);
      LinkKeepsNodes(mem, n, remoteHead, slots, held - {n}, layout.nodeSize);
      SlotPositive(mem, slots, headers, exp, self, n);
      ChainPush(mem, remoteHead, parked, n);
      ghost var m0 := mem;
      mem := mem[n := remoteHead];
      remoteHead := n;
      parked := [n] + parked;
      held := held - {n};
      ChainFrame(m0, mem, freeHead, free);
      RoutedKept(m0, mem, slots, headers, exp, self, n, old(remoteHead));
    }

    /** In the middle of a drain: the nodes still to be spliced in start at `n`. */
    ghost predicate Draining(n: Addr)
      reads `mem, `chunks, `freeHead, `remoteHead, `size, `capacity, `calls, `free, `parked, `held, `slots, `headers
    {
      && Placed(layout, exp, source, calls, chunks, slots, headers)
      && Chain(mem, freeHead, free) && Chain(mem, n, parked) && remoteHead == 0
      && Partition(free, parked, held, slots, size, capacity)
      && Routed(mem, slots, headers, exp, self)
    }

    // One round of the drain: the node's link is read, then it heads the free list.
    method SpliceOne(n: Addr) returns (next: Addr)
      requires Draining(n) && n != 0
      modifies `mem, `freeHead, `free, `parked, `size
      ensures Draining(next)
      ensures old(parked) != [] && n == old(parked)[0] && parked == old(parked)[1..] && free == [n] + old(free)
      ensures n in old(mem) && next == old(mem)[n] && mem == old(mem)[n := old(freeHead)] && freeHead == n
      ensures size == old(size) - 1
      ensures NodesKept(old(mem), mem, held, layout.nodeSize)
    {
      hide GrowthOk, GrowthSound, Placed, SlotsApart, NodesKept, LinkOk, Chain, Routed, Partition;
      PlacedSlots(layout, exp, source, calls, chunks, slots, headers);
      SameNodes(mem, held, layout.nodeSize);
      ChainPop(mem, n, parked);
      SpliceKeeps(mem, mem, n, freeHead, free, parked, held, slots, headers, size, capacity, exp, self,
          layout.nodeSize);
      next := mem[n];
      PushFreeNode(n);
      parked := parked[1..];
      size := size - 1;
    }

    /** Splices every parked node into the free list. */
    method DrainRemote() returns (drained: bool)
      requires Valid()
      modifies `mem, `remoteHead, `freeHead, `free, `parked, `size
      ensures Valid()
      ensures drained <==> old(parked) != []
      ensures parked == [] && remoteHead == 0
      ensures free == Reversed(old(parked), |old(parked)|) + old(free)
      ensures size == old(size) - |old(parked)|
      ensures Knows() == Drained(old(Knows()))
      ensures NodesKept(old(mem), mem, held, layout.nodeSize)
    {
      hide GrowthOk, GrowthSound, Placed, SlotsApart, NodesKept, LinkOk, Chain, Routed, Partition;
      SameNodes(mem, held, layout.nodeSize);
      ChainPop(mem, remoteHead, parked);
      var n := remoteHead;
      remoteHead := 0;
      if n == 0 {
        return false;
      }
      ghost var all, free0, k := parked, free, 0;
      assert all[0..] == all;
      while n != 0
        invariant 0 <= k <= |all| && parked == all[k..] && free == Reversed(all, k) + free0
        invariant Draining(n) && size == old(size) - k && NodesKept(old(mem), mem, held, layout.nodeSize)
        decreases |parked|
      {
        ghost var mem1 := mem;
        n := SpliceOne(n);
        NodesTwice(old(mem), mem1, mem, held, layout.nodeSize);
        assert [all[k]] + (Reversed(all, k) + free0) == [all[k]] + Reversed(all, k) + free0;
        k := k + 1;
      }
      ChainPop(mem, n, parked);
      drained := true;
    }
  }

  /** Two sound pools that know the same have the same slots, the same heads, the same
      links behind them, and the same owner in every header. */
  lemma KnowledgeIsPool(a: NodePool, b: NodePool)
    requires a.Sound() && b.Sound() && a.Knows() == b.Knows() && a.layout == b.layout && a.self == b.self
    ensures a.freeHead == b.freeHead && a.remoteHead == b.remoteHead
    ensures forall p: Addr :: p in a.slots <==> p in b.slots
    ensures forall h: Addr :: h in a.headers ==> h in b.headers && h in a.mem && h in b.mem && a.mem[h] == b.mem[h]
    ensures forall p: Addr :: p in a.free || p in a.parked ==> p in a.mem && p in b.mem && a.mem[p] == b.mem[p]
  {
    hide Partition, Inside, SlotsApart, SoundSource, Laid, MaskBase, Layout.Granule, Layout.PerGranule, IsNodeOf;
    hide HeaderIn, LinkOk;
    SameLinks(a.mem, b.mem, a.freeHead, b.freeHead, a.free);
    SameLinks(a.mem, b.mem, a.remoteHead, b.remoteHead, a.parked);
  }

  lemma SameLinks(m1: map<Addr, int>, m2: map<Addr, int>, h1: Addr, h2: Addr, s: seq<Addr>)
    requires Chain(m1, h1, s) && Chain(m2, h2, s)
    ensures h1 == h2 && forall p: Addr :: p in s ==> p in m1 && p in m2 && m1[p] == m2[p]
  {
    forall p: Addr | p in s
      ensures p in m1 && p in m2 && m1[p] == m2[p]
    {
      var j: nat :| j < |s| && s[j] == p;
      assert LinkOk(m1, s, j) && LinkOk(m2, s, j);
    }
  }

  // One more parked node is spliced into the free list.
  lemma SpliceKeeps(mem0: map<Addr, int>, mem: map<Addr, int>, n: Addr, freeHead: Addr, free: seq<Addr>,
                    parked: seq<Addr>, held: set<Addr>,
                    slots: set<Addr>, headers: set<Addr>, size: nat, capacity: nat, exp: nat, self: int, node: nat)
    requires Chain(mem, n, parked) && n != 0 && parked != [] && n == parked[0]
    requires Partition(free, parked, held, slots, size, capacity) && Routed(mem, slots, headers, exp, self)
    requires SlotsApart(slots, node) && node > 0 && NodesKept(mem0, mem, held, node)
    ensures n in mem && n !in free && size > 0
    ensures Chain(mem[n := freeHead], mem[n], parked[1..])
    ensures Partition([n] + free, parked[1..], held, slots, size - 1, capacity)
    ensures Routed(mem[n := freeHead], slots, headers, exp, self)
    ensures NodesKept(mem0, mem[n := freeHead], held, node)
  {
    hide Partition, Routed, NodesKept, SlotsApart;
    ChainPop(mem, n, parked);
    SplicedPartition(free, parked, held, slots, size, capacity);
    ParkedIsSlot(free, parked, held, slots, size, capacity);
    LinkKeepsNodes(mem, n, freeHead, slots, held, node);
    NodesTwice(mem0, mem, mem[n := freeHead], held, node);
    ChainFrame(mem, mem[n := freeHead], mem[n], parked[1..]);
    RoutedKept(mem, mem[n := freeHead], slots, headers, exp, self, n, freeHead);
  }

  lemma FewerNodes(before: map<Addr, int>, after: map<Addr, int>, slots: set<Addr>, nodes: set<Addr>, node: nat)
    requires PartOf(nodes, slots)
    ensures NodesKept(before, after, slots, node) ==> NodesKept(before, after, nodes, node)
  {
  }

  lemma ParkedIsSlot(free: seq<Addr>, parked: seq<Addr>, held: set<Addr>, slots: set<Addr>, size: nat, capacity: nat)
    requires Partition(free, parked, held, slots, size, capacity) && parked != []
    ensures parked[0] in slots && parked[0] !in held && PartOf(held, slots)
  {
    var first: Addr := parked[0];
    assert first in parked;
  }
}
