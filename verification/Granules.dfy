/** The granule layout of a headered chunk: power-of-two granules, each with an
    owner header at its base and as many nodes behind it as fit; and the mask that
    leads from any node back to its header. */
module Granules {
  import opened Words
  import opened BinMask

  type Addr = int

  const GRANULE_HEADER: nat := 16

  /** sizeof(node), alignof(node) and the page size; alignment and page size are
      powers of two, and the size of a type is a multiple of its alignment. */
  datatype Layout = Layout(nodeSize: nat, alignExp: nat, pageExp: nat) {
    function NodeAlign(): nat { Pow2(alignExp) }

    function PageSize(): nat { Pow2(pageExp) }

    ghost predicate Ok() {
      && nodeSize >= 8 && NodeAlign() >= 8
      && Divides(NodeAlign(), nodeSize)
      && nodeSize + HeaderOffset() <= Pow2(63) && PageSize() <= Pow2(63)
    }

    /** First node of a granule. */
    function HeaderOffset(): nat { Max(GRANULE_HEADER, NodeAlign()) }

    /** `granule_for`: a page, or the least power of two that holds a header and a node. */
    function Granule(): nat { Max(PageSize(), BitCeil(nodeSize + HeaderOffset())) }

    function PerGranule(): nat
      requires nodeSize > 0
    {
      if Granule() < HeaderOffset() then 0 else FloorDiv(Granule() - HeaderOffset(), nodeSize)
    }
  }

  function FloorDiv(n: nat, d: nat): nat
    requires d > 0
  {
    n / d
  }

  ghost predicate Divides(d: nat, n: int) {
    exists k: int :: Product(d, k) == n
  }

  function Product(d: nat, k: int): int {
    d * k
  }

  // ---------- powers of two ----------

  function BitCeilFrom(e: nat, n: nat): nat
    decreases n - Pow2(e)
  {
    Pow2Positive(e);
    if Pow2(e) >= n then e else BitCeilFrom(e + 1, n)
  }

  /** std::bit_ceil */
  function BitCeil(n: nat): nat {
    Pow2(BitCeilFrom(0, n))
  }

  lemma {:induction false} Pow2Divides(a: nat, b: nat)
    requires a <= b
    ensures Divides(Pow2(a), Pow2(b))
  {
    if a == b {
      assert Product(Pow2(a), 1) == Pow2(b);
    } else {
      Pow2Divides(a, b - 1);
      var k :| Product(Pow2(a), k) == Pow2(b - 1);
      DoubleProduct(Pow2(a), k);
      assert Product(Pow2(a), 2 * k) == Pow2(b);
    }
  }

  lemma DoubleProduct(d: nat, k: int)
    ensures Product(d, 2 * k) == 2 * Product(d, k)
  {
  }

  lemma {:induction false} BitCeilIsLeast(e: nat, n: nat)
    requires e == 0 || Pow2(e - 1) < n
    ensures Pow2(BitCeilFrom(e, n)) >= n
    ensures forall k: nat :: Pow2(k) >= n ==> Pow2(BitCeilFrom(e, n)) <= Pow2(k)
    decreases n - Pow2(e)
  {
    Pow2Positive(e);
    if Pow2(e) >= n {
      forall k: nat | Pow2(k) >= n
        ensures Pow2(e) <= Pow2(k)
      {
        if k < e {
          Pow2Monotone(k, e - 1);
        } else {
          Pow2Monotone(e, k);
        }
      }
    } else {
      BitCeilIsLeast(e + 1, n);
    }
  }

  lemma DividesSum(d: nat, a: int, b: int)
    requires Divides(d, a) && Divides(d, b)
    ensures Divides(d, a + b)
  {
    var j :| Product(d, j) == a;
    var k :| Product(d, k) == b;
    assert Product(d, j + k) == a + b;
  }

  lemma DividesMultiple(d: nat, a: int, m: int)
    requires Divides(d, a)
    ensures Divides(d, a * m)
  {
    var j :| Product(d, j) == a;
    assert Product(d, j * m) == a * m by {
      assert d * (j * m) == (d * j) * m;
    }
  }

  /** The granule is the exponent's power of two, holds a page, and a node besides
      its header; its size and its first node are aligned. */
  lemma GranuleShape(l: Layout) returns (e: nat)
    requires l.Ok()
    ensures l.Granule() == Pow2(e)
    ensures l.Granule() >= l.PageSize() && l.Granule() >= l.nodeSize + l.HeaderOffset()
    ensures l.PerGranule() >= 1
    ensures l.HeaderOffset() + l.PerGranule() * l.nodeSize <= l.Granule()
    ensures Divides(l.NodeAlign(), l.Granule()) && Divides(l.NodeAlign(), l.HeaderOffset())
    ensures l.Granule() <= Pow2(63)
  {
    var n := l.nodeSize + l.HeaderOffset();
    BitCeilIsLeast(0, n);
    var c := BitCeilFrom(0, n);
    e := if l.PageSize() < Pow2(c) then c else l.pageExp;
    ExponentOrder(l.alignExp, e);
    Pow2Divides(l.alignExp, e);
    assert Pow2(4) == 16;
    if l.HeaderOffset() == 16 {
      ExponentOrder(l.alignExp, 4);
      Pow2Divides(l.alignExp, 4);
    } else {
      Pow2Divides(l.alignExp, l.alignExp);
    }
    AtLeastOne(l.Granule() - l.HeaderOffset(), l.nodeSize);
  }

  /** No granule is larger than it need be: it is the least power of two that holds a
      page, and a node besides its header. */
  lemma GranuleIsLeast(l: Layout)
    requires l.Ok()
    ensures forall k: nat :: Pow2(k) >= l.PageSize() && Pow2(k) >= l.nodeSize + l.HeaderOffset() ==>
              l.Granule() <= Pow2(k)
  {
    BitCeilIsLeast(0, l.nodeSize + l.HeaderOffset());
  }

  /** No node more would fit. */
  lemma GranuleIsFull(l: Layout)
    requires l.Ok()
    ensures l.Granule() < l.HeaderOffset() + (l.PerGranule() + 1) * l.nodeSize
  {
    HoldsOne(l);
    hide Layout.Ok, Layout.Granule, Layout.HeaderOffset;
    AtLeastOne(l.Granule() - l.HeaderOffset(), l.nodeSize);
    PerGranuleIs(l);
    hide Layout.PerGranule;
    MovesOver(l.Granule(), l.HeaderOffset(), (l.PerGranule() + 1) * l.nodeSize);
  }

  lemma HoldsOne(l: Layout)
    requires l.Ok()
    ensures l.nodeSize > 0 && l.Granule() >= l.HeaderOffset() + l.nodeSize
  {
    BitCeilIsLeast(0, l.nodeSize + l.HeaderOffset());
    hide Divides, Pow2;
  }

  lemma PerGranuleIs(l: Layout)
    requires l.nodeSize > 0 && l.Granule() >= l.HeaderOffset()
    ensures l.PerGranule() == (l.Granule() - l.HeaderOffset()) / l.nodeSize
  {
    hide Layout.Granule, Layout.HeaderOffset;
  }

  lemma MovesOver(a: int, b: int, c: int)
    ensures a - b < c ==> a < b + c
  {
  }

  /** The first node lies at the least aligned offset behind the header. */
  lemma FirstNodeIsNearest(l: Layout, offset: nat)
    requires l.Ok() && offset >= 16 && Divides(l.NodeAlign(), offset)
    ensures 16 <= l.HeaderOffset() <= offset
  {
    PositiveMultiple(l.NodeAlign(), offset);
  }

  lemma PositiveMultiple(d: nat, n: nat)
    requires Divides(d, n) && n > 0
    ensures d <= n
  {
    var k :| Product(d, k) == n;
    MulMonotone(k, 0, d);
    MulMonotone(1, k, d);
  }

  /** The usual case, nodes of 64 bytes and pages of 4 KiB: a granule is a page and
      holds 63 nodes. */
  lemma PageOfNodes()
    ensures var l := Layout(64, 3, 12); l.Ok() && l.Granule() == 4096 && l.PerGranule() == 63
  {
    var l := Layout(64, 3, 12);
    assert Pow2(3) == 8;
    assert Pow2(7) == 128;
    assert Pow2(12) == 32 * Pow2(7);
    Pow2Monotone(12, 63);
    assert Product(8, 8) == 64;
    BitCeilIsLeast(0, 80);
    assert l.HeaderOffset() == 16;
  }

  lemma ExponentOrder(a: nat, b: nat)
    requires Pow2(a) <= Pow2(b)
    ensures a <= b
  {
    Pow2Positive(b);
    if b < a {
      Pow2Monotone(b + 1, a);
    }
  }

  lemma AtLeastOne(n: nat, d: nat)
    requires 0 < d <= n
    ensures n / d >= 1 && (n / d) * d <= n < (n / d + 1) * d
  {
    assert n == (n / d) * d + n % d;
    assert (n / d + 1) * d == (n / d) * d + d;
  }

  // ---------- nodes ----------

  /** The four numbers the node arithmetic works with. */
  datatype Grid = Grid(granule: nat, per: nat, offset: nat, node: nat) {
    ghost predicate Ok() {
      granule > 0 && per > 0 && node > 0 && GRANULE_HEADER <= offset && offset + per * node <= granule
    }

    function Local(i: nat): nat
      requires per > 0
    {
      offset + (i % per) * node
    }

    /** Address of node `i` of a chunk that starts at `base`. */
    function At(base: Addr, i: nat): Addr
      requires per > 0
    {
      base + (i / per) * granule + offset + (i % per) * node
    }

    function GranuleCount(count: nat): nat
      requires per > 0
    {
      (count + per - 1) / per
    }

    /** Base of granule `k`, where its header lies. */
    function Header(base: Addr, k: nat): Addr {
      base + k * granule
    }

    /** `contains`, test by test. */
    predicate Contains(base: Addr, count: nat, p: Addr)
      requires granule > 0 && per > 0 && node > 0
    {
      if p < base || p >= base + GranuleCount(count) * granule then false else
      var delta := p - base;
      var within := delta % granule;
      if within < offset || (within - offset) % node != 0 then false else
      var idx := (within - offset) / node;
      if idx >= per then false else
      (delta / granule) * per + idx < count
    }
  }

  /** The grid of a layout. */
  function GridOf(l: Layout): Grid
    requires l.nodeSize > 0
  {
    Grid(l.Granule(), l.PerGranule(), l.HeaderOffset(), l.nodeSize)
  }

  lemma GridOk(l: Layout)
    requires l.Ok()
    ensures GridOf(l).Ok() && l.HeaderOffset() >= GRANULE_HEADER
  {
    var e := GranuleShape(l);
  }

  // All products of an index are monotone; with them the rest is linear.
  lemma Steps(a: int, b: int, d: nat)
    ensures a < b ==> a * d + d <= b * d
  {
    MulMonotone(a + 1, b, d);
    assert (a + 1) * d == a * d + d;
  }

  lemma LocalBounds(g: Grid, i: nat)
    requires g.Ok()
    ensures g.offset <= g.Local(i) && g.Local(i) + g.node <= g.granule
  {
    Steps(i % g.per, g.per, g.node);
    MulMonotone(0, i % g.per, g.node);
  }

  /** A node's address, taken apart: its granule and its place there. */
  lemma AtSplits(g: Grid, base: Addr, i: nat)
    requires g.Ok()
    ensures g.At(base, i) - base == (i / g.per) * g.granule + g.Local(i) >= 0
    ensures (g.At(base, i) - base) % g.granule == g.Local(i)
    ensures (g.At(base, i) - base) / g.granule == i / g.per
  {
    LocalBounds(g, i);
    ModOfProduct(i / g.per, g.Local(i), g.granule);
    MulMonotone(0, i / g.per, g.granule);
  }

  lemma CountOfGranules(count: nat, per: nat, i: nat)
    requires per > 0 && i < count
    ensures i / per < (count + per - 1) / per
  {
    var q, n := i / per, (count + per - 1) / per;
    assert i == q * per + i % per;
    assert count + per - 1 == n * per + (count + per - 1) % per;
    MulMonotone(n, q, per);
  }

  lemma NodeIsContained(g: Grid, base: Addr, count: nat, i: nat)
    requires g.Ok() && i < count
    ensures g.Contains(base, count, g.At(base, i))
  {
    var q, r := i / g.per, i % g.per;
    AtSplits(g, base, i);
    LocalBounds(g, i);
    CountOfGranules(count, g.per, i);
    Steps(q, g.GranuleCount(count), g.granule);
    ModOfProduct(r, 0, g.node);
    assert i == q * g.per + r;
    var delta := g.At(base, i) - base;
    assert delta < g.GranuleCount(count) * g.granule;
    assert delta % g.granule - g.offset == r * g.node;
  }

  lemma ContainedIsNode(g: Grid, base: Addr, count: nat, p: Addr) returns (i: nat)
    requires g.Ok() && g.Contains(base, count, p)
    ensures i < count && g.At(base, i) == p
  {
    var delta := p - base;
    var within := delta % g.granule;
    var idx, q := (within - g.offset) / g.node, delta / g.granule;
    AtIndex(g, base, q, idx);
    Quotient(delta, g.granule);
    Quotient(within - g.offset, g.node);
    i := q * g.per + idx;
  }

  lemma AtIndex(g: Grid, base: Addr, q: nat, idx: nat)
    requires g.Ok() && idx < g.per
    ensures q * g.per + idx >= 0
    ensures g.At(base, q * g.per + idx) == base + q * g.granule + g.offset + idx * g.node
  {
    MulMonotone(0, q, g.per);
    ModOfProduct(q, idx, g.per);
  }

  lemma Quotient(n: nat, d: nat)
    requires d > 0
    ensures n == (n / d) * d + n % d
  {
  }

  /** Different nodes do not overlap, and no node overlaps a granule header. */
  lemma NodesApart(g: Grid, base: Addr, i: nat, j: nat)
    requires g.Ok()
    ensures i != j ==> g.At(base, i) + g.node <= g.At(base, j) || g.At(base, j) + g.node <= g.At(base, i)
    ensures var header := base + (j / g.per) * g.granule;
            g.At(base, i) + g.node <= header || header + GRANULE_HEADER <= g.At(base, i)
  {
    var qi, ri, qj, rj := i / g.per, i % g.per, j / g.per, j % g.per;
    LocalBounds(g, i);
    LocalBounds(g, j);
    Steps(qi, qj, g.granule);
    Steps(qj, qi, g.granule);
    Steps(ri, rj, g.node);
    Steps(rj, ri, g.node);
    Quotient(i, g.per);
    Quotient(j, g.per);
    Separated(qi * g.granule, qj * g.granule, g.Local(i), g.Local(j), g.granule, g.node, qi, qj, ri, rj);
  }

  lemma HeadersApart(g: Grid, base: Addr, j: nat, k: nat)
    ensures j < k ==> g.Header(base, j) + g.granule <= g.Header(base, k)
  {
    Steps(j, k, g.granule);
  }

  /** No node overlaps any granule header. */
  lemma HeaderFreeOfNodes(g: Grid, base: Addr, i: nat, k: nat)
    requires g.Ok()
    ensures g.At(base, i) + g.node <= g.Header(base, k) || g.Header(base, k) + GRANULE_HEADER <= g.At(base, i)
  {
    ModOfProduct(k, 0, g.per);
    MulMonotone(0, k, g.per);
    NodesApart(g, base, i, k * g.per);
  }

  /** Nodes and headers of a chunk lie within its granules. */
  lemma WithinChunk(g: Grid, base: Addr, count: nat, i: nat, k: nat)
    requires g.Ok()
    ensures i < count ==> base <= g.At(base, i) && g.At(base, i) + g.node <= base + g.GranuleCount(count) * g.granule
    ensures k < g.GranuleCount(count) ==>
              base <= g.Header(base, k) && g.Header(base, k) + g.granule <= base + g.GranuleCount(count) * g.granule
    ensures i < count ==> i / g.per < g.GranuleCount(count)
  {
    AtSplits(g, base, i);
    LocalBounds(g, i);
    MulMonotone(0, k, g.granule);
    Steps(k, g.GranuleCount(count), g.granule);
    if i < count {
      CountOfGranules(count, g.per, i);
      Steps(i / g.per, g.GranuleCount(count), g.granule);
    }
  }

  // The same, with the products named.
  lemma Separated(x: int, y: int, li: int, lj: int, granule: int, node: int, qi: int, qj: int, ri: int, rj: int)
    requires qi < qj ==> x + granule <= y
    requires qj < qi ==> y + granule <= x
    requires qi == qj ==> x == y
    requires ri < rj ==> li + node <= lj
    requires rj < ri ==> lj + node <= li
    requires GRANULE_HEADER <= li && li + node <= granule && GRANULE_HEADER <= lj && lj + node <= granule
    ensures qi != qj || ri != rj ==> x + li + node <= y + lj || y + lj + node <= x + li
    ensures x + li + node <= y || y + GRANULE_HEADER <= x + li
  {
  }

  /** Exactly the seeded slots are recognised: headers, gaps between nodes, the
      unseeded tail and everything outside are rejected, and no slot is met twice. */
  lemma ContainsIsMembership(l: Layout, base: Addr, count: nat, p: Addr)
    requires l.Ok()
    ensures var g := GridOf(l);
            && g.Ok()
            && (g.Contains(base, count, p) <==> exists i: nat :: i < count && g.At(base, i) == p)
            && forall i: nat, j: nat :: g.At(base, i) == g.At(base, j) ==> i == j
  {
    GridOk(l);
    var g := GridOf(l);
    if g.Contains(base, count, p) {
      var i := ContainedIsNode(g, base, count, p);
    }
    forall i: nat | i < count && g.At(base, i) == p
      ensures g.Contains(base, count, p)
    {
      NodeIsContained(g, base, count, i);
    }
    forall i: nat, j: nat | g.At(base, i) == g.At(base, j)
      ensures i == j
    {
      NodesApart(g, base, i, j);
    }
  }

  // ---------- the mask ----------

  /** `p & ~(granule - 1)` for a granule of 2^e bytes: the low e bits cleared. */
  function MaskBase(p: nat, e: nat): nat {
    ClearBelow(p, e)
  }

  lemma {:induction false} ClearBelowValue(w: nat, k: nat)
    ensures Pow2(k) > 0 && ClearBelow(w, k) == w - w % Pow2(k)
  {
    Pow2Positive(k);
    if k == 0 {
    } else {
      ClearBelowValue(w / 2, k - 1);
      HalfMod(w, Pow2(k - 1));
    }
  }

  lemma HalfMod(w: nat, m: nat)
    requires m > 0
    ensures w % (2 * m) == 2 * ((w / 2) % m) + w % 2
  {
    var q, r := (w / 2) / m, (w / 2) % m;
    assert w == 2 * (q * m + r) + w % 2;
    assert w == q * (2 * m) + (2 * r + w % 2) by {
      assert 2 * (q * m) == q * (2 * m);
    }
    ModOfProduct(q, 2 * r + w % 2, 2 * m);
  }

  lemma SlotAligned(g: Grid, base: nat, i: nat, m: nat, align: nat)
    requires g.Ok() && g.At(base, i) == Product(g.granule, m + i / g.per) + g.Local(i)
    requires Divides(align, g.granule) && Divides(align, g.offset) && Divides(align, g.node)
    ensures Divides(align, g.At(base, i))
  {
    hide Divides;
    AtAligned(align, g, m + i / g.per, i % g.per);
  }

  lemma MaskOfSlot(g: Grid, base: nat, i: nat, m: nat, e: nat)
    requires g.Ok() && Product(g.granule, m) == base && g.granule == Pow2(e)
    ensures g.At(base, i) >= 0 && MaskBase(g.At(base, i), e) == base + (i / g.per) * g.granule
    ensures g.At(base, i) == Product(g.granule, m + i / g.per) + g.Local(i)
  {
    hide Pow2;
    AtSplits(g, base, i);
    LocalBounds(g, i);
    var q := i / g.per;
    BaseMultiple(g.granule, m, q, base);
    ModOfProduct(m + q, g.Local(i), g.granule);
    ClearBelowValue(g.At(base, i), e);
  }

  /** Masking any node address leads to the base of that node's own granule, and
      every node is aligned. */
  lemma MaskFindsGranule(l: Layout, base: nat, i: nat) returns (e: nat)
    requires l.Ok() && Divides(l.Granule(), base)
    ensures l.Granule() == Pow2(e) && GridOf(l).Ok()
    ensures var p := GridOf(l).At(base, i);
            && p >= 0
            && MaskBase(p, e) == base + (i / l.PerGranule()) * l.Granule()
            && Divides(l.NodeAlign(), p)
  {
    e := GranuleShape(l);
    GridOk(l);
    var g := GridOf(l);
    var m :| Product(g.granule, m) == base;
    hide Layout.Granule, Layout.HeaderOffset, Layout.NodeAlign, Layout.Ok, Pow2;
    MaskOfSlot(g, base, i, m, e);
    SlotAligned(g, base, i, m, l.NodeAlign());
  }

  lemma AtAligned(align: nat, g: Grid, q: nat, r: nat)
    requires Divides(align, g.granule) && Divides(align, g.offset) && Divides(align, g.node)
    ensures Divides(align, g.granule * q + (g.offset + r * g.node))
  {
    DividesMultiple(align, g.granule, q);
    DividesMultiple(align, g.node, r);
    assert g.node * r == r * g.node;
    DividesSum(align, g.offset, r * g.node);
    DividesSum(align, g.granule * q, g.offset + r * g.node);
  }

  lemma BaseMultiple(g: nat, m: int, q: nat, base: nat)
    requires g > 0 && Product(g, m) == base
    ensures m >= 0 && (m + q) * g == base + q * g && g * (m + q) == base + q * g
  {
    if m < 0 {
      MulMonotone(m, -1, g);
    }
  }
}
