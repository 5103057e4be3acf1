/** The pools of any number of threads over one memory: every thread allocates from its
    own pool, frees its own nodes directly and sends others home to the pool that the
    header of their granule names. The push is taken apart into its single loads and
    writes, the drain into the exchange and the splicing of one node after the other. */
module NodePools {
  import opened Words
  import opened BinMask
  import opened Granules
  import opened Chains
  import opened PoolState
  import P = Pool

  type Addr = int
  type Thread = int

  /** Where a thread stands in `remote_push`. */
  datatype Pc = Idle | Loaded(b: Addr, expected: Addr) | Linked(b: Addr, expected: Addr)

  /** Where a node is. */
  datatype Place = Free | User(t: Thread) | Pushing(t: Thread) | Parked | Batch

  /** The pool of one thread: its heads, the cursor of its drain and its counters; the
      lists that the links spell, as history. */
  datatype Pool = Pool(
    freeHead: Addr,
    remoteHead: Addr,
    cursor: Addr,
    size: nat,
    capacity: nat,
    free: seq<Addr>,
    stack: seq<Addr>,
    batch: seq<Addr>)

  /** The memory holds the link words of the nodes and the owner words of the headers;
      `owner` and `place` are history. */
  datatype State = State(
    grid: Grid,
    exp: nat,
    mem: map<Addr, int>,
    pools: map<Thread, Pool>,
    pc: map<Thread, Pc>,
    owner: map<Addr, Thread>,
    place: map<Addr, Place>)

  datatype Step =
    | Create(t: Thread)
    | AddChunk(t: Thread, c: Slots)
    | Issue(t: Thread)
    | Write(t: Thread, n: Addr, value: int)
    | HandOver(t: Thread, n: Addr, u: Thread)
    | LocalFree(t: Thread, n: Addr)
    | LoadHead(t: Thread, n: Addr)
    | WriteLink(t: Thread)
    | CasSuccess(t: Thread)
    | CasFailure(t: Thread)
    | Exchange(t: Thread)
    | Splice(t: Thread)

  /** The pool that the header of the node's granule names. */
  predicate Routes(s: State, n: Addr) {
    n >= 0 && MaskBase(n, s.exp) in s.mem && s.mem[MaskBase(n, s.exp)] in s.pools
  }

  function Home(s: State, n: Addr): Thread
    requires Routes(s, n)
  {
    s.mem[MaskBase(n, s.exp)]
  }

  predicate Holds(s: State, n: Addr, t: Thread) {
    n in s.place && s.place[n] == User(t) && t in s.pools && t in s.pc && Routes(s, n)
  }

  /** Where the new chunk lies, nothing is yet. */
  ghost predicate Fresh(s: State, c: Slots)
    requires s.grid.per > 0
  {
    && c.base > 0 && Divides(s.grid.granule, c.base)
    && (forall n: Addr {:trigger n in s.owner} :: n in s.owner ==>
          !Covers(s.grid, c, n) && (n >= 0 ==> !Covers(s.grid, c, MaskBase(n, s.exp))))
  }

  predicate Covers(g: Grid, c: Slots, a: Addr)
    requires g.per > 0
  {
    c.base <= a < c.base + g.GranuleCount(c.count) * g.granule
  }

  ghost predicate Enabled(s: State, step: Step) {
    match step
    case Create(t) => t !in s.pools && t !in s.pc
    case AddChunk(t, c) => t in s.pools && s.grid.per > 0 && Fresh(s, c)
    case Issue(t) => t in s.pools && s.pools[t].freeHead != 0 && s.pools[t].freeHead in s.mem
    case Write(t, n, value) => Holds(s, n, t)
    case HandOver(t, n, u) => Holds(s, n, t)
    case LocalFree(t, n) => Holds(s, n, t) && Home(s, n) == t && s.pools[t].size > 0
    case LoadHead(t, n) => Holds(s, n, t) && Home(s, n) != t && s.pc[t] == Idle
    case WriteLink(t) => t in s.pc && s.pc[t].Loaded?
    case CasSuccess(t) => t in s.pc && s.pc[t].Linked? && Routes(s, s.pc[t].b) &&
        s.pools[Home(s, s.pc[t].b)].remoteHead == s.pc[t].expected
    case CasFailure(t) => t in s.pc && s.pc[t].Linked? && Routes(s, s.pc[t].b)
    case Exchange(t) => t in s.pools && s.pools[t].cursor == 0
    case Splice(t) => t in s.pools && s.pools[t].cursor != 0 && s.pools[t].cursor in s.mem && s.pools[t].size > 0
  }

  /** Memory and head after the first n slots of a chunk are pushed. */
  function Seeded(mem: map<Addr, int>, g: Grid, base: nat, n: nat, head: Addr): (map<Addr, int>, Addr)
    requires g.per > 0
  {
    if n == 0 then (mem, head)
    else var m := Seeded(mem, g, base, n - 1, head); (m.0[g.At(base, n - 1) := m.1], g.At(base, n - 1))
  }

  /** The owner word of the first k headers of a chunk is written. */
  function Stamped(mem: map<Addr, int>, g: Grid, base: nat, k: nat, t: Thread): map<Addr, int> {
    if k == 0 then mem else Stamped(mem, g, base, k - 1, t)[g.Header(base, k - 1) := t]
  }

  ghost function NodesOf(g: Grid, c: Slots): set<Addr>
    requires g.per > 0
  {
    P.NodeSet(g, c.base, c.count)
  }

  ghost function Next(s: State, step: Step): State
    requires Enabled(s, step)
  {
    match step
    case Create(t) => s.(pools := s.pools[t := Pool(0, 0, 0, 0, 0, [], [], [])], pc := s.pc[t := Idle])
    case AddChunk(t, c) =>
      var p := s.pools[t];
      var m := Seeded(Stamped(s.mem, s.grid, c.base, s.grid.GranuleCount(c.count), t), s.grid, c.base, c.count,
          p.freeHead);
      s.(mem := m.0,
         pools := s.pools[t := p.(freeHead := m.1, capacity := p.capacity + c.count,
               free := Seeds(s.grid, c.base, c.count) + p.free)],
         owner := map n | n in s.owner.Keys + NodesOf(s.grid, c) :: if n in s.owner then s.owner[n] else t,
         place := map n | n in s.place.Keys + NodesOf(s.grid, c) :: if n in s.place then s.place[n] else Free)
    case Issue(t) =>
      var p := s.pools[t];
      s.(pools := s.pools[t := p.(freeHead := s.mem[p.freeHead], size := p.size + 1,
              free := if p.free == [] then [] else p.free[1..])],
         place := s.place[p.freeHead := User(t)])
    case Write(t, n, value) => s.(mem := s.mem[n := value])
    case HandOver(t, n, u) => s.(place := s.place[n := User(u)])
    case LocalFree(t, n) =>
      var p := s.pools[t];
      s.(mem := s.mem[n := p.freeHead],
         pools := s.pools[t := p.(freeHead := n, size := p.size - 1, free := [n] + p.free)],
         place := s.place[n := Free])
    case LoadHead(t, n) => s.(pc := s.pc[t := Loaded(n, s.pools[Home(s, n)].remoteHead)],
        place := s.place[n := Pushing(t)])
    case WriteLink(t) => s.(mem := s.mem[s.pc[t].b := s.pc[t].expected],
        pc := s.pc[t := Linked(s.pc[t].b, s.pc[t].expected)])
    case CasSuccess(t) =>
      var b := s.pc[t].b;
      var p := s.pools[Home(s, b)];
      s.(pools := s.pools[Home(s, b) := p.(remoteHead := b, stack := [b] + p.stack)], pc := s.pc[t := Idle],
          place := s.place[b := Parked])
    case CasFailure(t) => s.(pc := s.pc[t := Loaded(s.pc[t].b, s.pools[Home(s, s.pc[t].b)].remoteHead)])
    case Exchange(t) =>
      var p := s.pools[t];
      s.(pools := s.pools[t := p.(cursor := p.remoteHead, remoteHead := 0, stack := [], batch := p.stack)],
         place := map n | n in s.place :: if n in p.stack then Batch else s.place[n])
    case Splice(t) =>
      var p := s.pools[t];
      var n := p.cursor;
      s.(mem := s.mem[n := p.freeHead],
         pools := s.pools[t := p.(freeHead := n, cursor := s.mem[n], size := p.size - 1, free := [n] + p.free,
               batch := if p.batch == [] then [] else p.batch[1..])],
         place := s.place[n := Free])
  }

  // ---------- the invariant ----------

  ghost function SlotsOf(owner: map<Addr, Thread>, t: Thread): set<Addr> {
    set n | n in owner && owner[n] == t
  }

  /** The nodes of a pool that are not on its free list. */
  ghost function Busy(owner: map<Addr, Thread>, place: map<Addr, Place>, t: Thread): set<Addr> {
    set n | n in owner && owner[n] == t && n in place && place[n] != Free
  }

  predicate At(owner: map<Addr, Thread>, place: map<Addr, Place>, t: Thread, n: Addr, p: Place) {
    n in owner && owner[n] == t && n in place && place[n] == p
  }

  /** The links of a pool spell its lists, its lists are what the places say, and its
      counters are exact. */
  ghost predicate PoolGood(p: Pool, mem: map<Addr, int>, owner: map<Addr, Thread>, place: map<Addr, Place>, t: Thread) {
    && Chain(mem, p.freeHead, p.free) && Chain(mem, p.remoteHead, p.stack) && Chain(mem, p.cursor, p.batch)
    && (forall n: Addr :: n in p.free <==> At(owner, place, t, n, Free))
    && (forall n: Addr :: n in p.stack <==> At(owner, place, t, n, Parked))
    && (forall n: Addr :: n in p.batch <==> At(owner, place, t, n, Batch))
    && p.size == |Busy(owner, place, t)| && p.capacity == |SlotsOf(owner, t)|
  }

  ghost predicate PoolOk(s: State, t: Thread)
    requires t in s.pools
  {
    PoolGood(s.pools[t], s.mem, s.owner, s.place, t)
  }

  ghost predicate PcGood(pc: Pc, mem: map<Addr, int>, place: map<Addr, Place>, t: Thread) {
    match pc
    case Idle => forall n :: n in place ==> place[n] != Pushing(t)
    case Loaded(b, e) => b in place && forall n :: n in place ==> (place[n] == Pushing(t) <==> n == b)
    case Linked(b, e) => b in mem && mem[b] == e && b in place && forall n :: n in place ==>
      (place[n] == Pushing(t) <==> n == b)
  }

  ghost predicate PcOk(s: State, t: Thread)
    requires t in s.pc
  {
    PcGood(s.pc[t], s.mem, s.place, t)
  }

  /** The header that masking a node's address leads to names its owner, and is no node. */
  ghost predicate Routed(mem: map<Addr, int>, owner: map<Addr, Thread>, exp: nat) {
    forall n: Addr {:trigger n in owner} :: n in owner ==>
      n > 0 && MaskBase(n, exp) in mem && mem[MaskBase(n, exp)] == owner[n] && MaskBase(n, exp) !in owner
  }

  ghost predicate GridGood(g: Grid, exp: nat) {
    g.Ok() && g.granule == Pow2(exp)
  }

  ghost predicate Inv(s: State) {
    && GridGood(s.grid, s.exp)
    && s.owner.Keys == s.place.Keys && s.pools.Keys == s.pc.Keys
    && (forall n :: n in s.owner ==> s.owner[n] in s.pools)
    && (forall n :: n in s.place && s.place[n].Pushing? ==> s.place[n].t in s.pc)
    && Routed(s.mem, s.owner, s.exp)
    && (forall t {:trigger PoolOk(s, t)} :: t in s.pools ==> PoolOk(s, t))
    && (forall t {:trigger PcOk(s, t)} :: t in s.pc ==> PcOk(s, t))
  }

  ghost predicate Init(s: State) {
    GridGood(s.grid, s.exp) && s.mem == map[] && s.pools == map[] && s.pc == map[] && s.owner == map[] &&
        s.place == map[]
  }

  lemma InitInv(s: State)
    requires Init(s)
    ensures Inv(s)
  {
    hide GridGood;
  }

  lemma Homeward(s: State, n: Addr)
    requires Inv(s) && n in s.owner
    ensures Routes(s, n) && Home(s, n) == s.owner[n] && n > 0
  {
    hide PoolOk, PcOk, GridGood, MaskBase;
  }

  // ---------- steps that concern one node ----------

  // What happens to node n is its own affair.
  ghost predicate OnlyNode(mem: map<Addr, int>, place: map<Addr, Place>, mem': map<Addr, int>, place': map<Addr, Place>,
                           n: Addr) {
    && (forall x: Addr {:trigger x in mem'} {:trigger mem'[x]} :: x != n && x in mem ==> x in mem' && mem'[x] == mem[x])
    && (forall x: Addr {:trigger x in place'} {:trigger place'[x]} :: x != n ==>
           (x in place' <==> x in place) && (x in place ==> place'[x] == place[x]))
  }

  lemma OtherPool(p: Pool, mem: map<Addr, int>, mem': map<Addr, int>, owner: map<Addr, Thread>, place: map<Addr, Place>,
                  place': map<Addr, Place>, u: Thread, n: Addr)
    requires PoolGood(p, mem, owner, place, u) && OnlyNode(mem, place, mem', place', n) && n in owner && owner[n] != u
    ensures PoolGood(p, mem', owner, place', u)
  {
    hide Chain, SlotsOf;
    ChainFrame(mem, mem', p.freeHead, p.free);
    ChainFrame(mem, mem', p.remoteHead, p.stack);
    ChainFrame(mem, mem', p.cursor, p.batch);
    forall x: Addr
      ensures x in Busy(owner, place', u) <==> x in Busy(owner, place, u)
    {
    }
    assert Busy(owner, place', u) == Busy(owner, place, u);
  }

  lemma OtherPc(pc: Pc, mem: map<Addr, int>, mem': map<Addr, int>, place: map<Addr, Place>, place': map<Addr, Place>,
                u: Thread, n: Addr)
    requires PcGood(pc, mem, place, u) && OnlyNode(mem, place, mem', place', n)
    requires n in place && n in place' && place[n] != Pushing(u) && place'[n] != Pushing(u)
    ensures PcGood(pc, mem', place', u)
  {
  }

  lemma RoutedStill(mem: map<Addr, int>, mem': map<Addr, int>, owner: map<Addr, Thread>, exp: nat, n: Addr)
    requires Routed(mem, owner, exp) && n in owner
    requires forall x: Addr {:trigger x in mem'} {:trigger mem'[x]} :: x != n && x in mem ==>
               x in mem' && mem'[x] == mem[x]
    ensures Routed(mem', owner, exp)
  {
    hide MaskBase;
  }

  /** A step on node n of pool o, by thread t, keeps the invariant if it keeps that pool
      and that thread in order, and touches no other node. */
  lemma NodeStep(s: State, s': State, o: Thread, p': Pool, t: Thread, pc': Pc, n: Addr)
    requires Inv(s) && n in s.owner && s.owner[n] == o && o in s.pools && t in s.pc
    requires s'.grid == s.grid && s'.exp == s.exp && s'.owner == s.owner && s'.pools == s.pools[o := p']
    requires s'.pc == s.pc[t := pc']
    requires OnlyNode(s.mem, s.place, s'.mem, s'.place, n) && n in s'.place
    requires PoolGood(p', s'.mem, s.owner, s'.place, o) && PcGood(pc', s'.mem, s'.place, t)
    requires forall u :: u != t ==> s.place[n] != Pushing(u) && s'.place[n] != Pushing(u)
    requires s'.place[n].Pushing? ==> s'.place[n].t == t
    ensures Inv(s')
  {
    hide PoolGood, PcGood, GridGood;
    RoutedStill(s.mem, s'.mem, s.owner, s.exp, n);
    hide Routed;
    KeysStill(s.place, s'.place, n);
    forall u | u in s'.pools
      ensures PoolOk(s', u)
    {
      if u != o {
        assert PoolOk(s, u);
        OtherPool(s.pools[u], s.mem, s'.mem, s.owner, s.place, s'.place, u, n);
      }
    }
    forall u | u in s'.pc
      ensures PcOk(s', u)
    {
      if u != t {
        assert PcOk(s, u);
        OtherPc(s.pc[u], s.mem, s'.mem, s.place, s'.place, u, n);
      }
    }
  }

  lemma KeysStill(place: map<Addr, Place>, place': map<Addr, Place>, n: Addr)
    requires n in place && n in place'
    requires forall x: Addr {:trigger x in place'} {:trigger place'[x]} :: x != n ==>
               (x in place' <==> x in place) && (x in place ==> place'[x] == place[x])
    ensures place'.Keys == place.Keys
  {
    forall x: Addr
      ensures x in place'.Keys <==> x in place.Keys
    {
    }
  }

  // ---------- a node with a user or a pusher ----------

  predicate Roaming(p: Place) {
    p.User? || p.Pushing?
  }

  // It concerns no list of its pool.
  lemma RoamingPool(p: Pool, mem: map<Addr, int>, mem': map<Addr, int>, owner: map<Addr, Thread>,
                    place: map<Addr, Place>, place': map<Addr, Place>, o: Thread, n: Addr)
    requires PoolGood(p, mem, owner, place, o) && OnlyNode(mem, place, mem', place', n) && n in owner
    requires n in place && Roaming(place[n]) && n in place' && Roaming(place'[n])
    ensures PoolGood(p, mem', owner, place', o)
  {
    hide Chain, SlotsOf;
    ChainFrame(mem, mem', p.freeHead, p.free);
    ChainFrame(mem, mem', p.remoteHead, p.stack);
    ChainFrame(mem, mem', p.cursor, p.batch);
    forall x: Addr
      ensures x in Busy(owner, place', o) <==> x in Busy(owner, place, o)
    {
    }
    assert Busy(owner, place', o) == Busy(owner, place, o);
  }

  lemma RoamKeeps(s: State, s': State, t: Thread, pc': Pc, n: Addr)
    requires Inv(s) && n in s.owner && t in s.pc
    requires s'.grid == s.grid && s'.exp == s.exp && s'.owner == s.owner && s'.pools == s.pools
    requires s'.pc == s.pc[t := pc']
    requires OnlyNode(s.mem, s.place, s'.mem, s'.place, n) && n in s.place && n in s'.place && Roaming(s.place[n])
    requires Roaming(s'.place[n])
    requires PcGood(pc', s'.mem, s'.place, t)
    requires forall u :: u != t ==> s.place[n] != Pushing(u) && s'.place[n] != Pushing(u)
    requires s'.place[n].Pushing? ==> s'.place[n].t == t
    ensures Inv(s')
  {
    hide PoolGood, PcGood, GridGood, Routed, OnlyNode;
    var o := s.owner[n];
    assert PoolOk(s, o);
    RoamingPool(s.pools[o], s.mem, s'.mem, s.owner, s.place, s'.place, o, n);
    assert s.pools == s.pools[o := s.pools[o]];
    NodeStep(s, s', o, s.pools[o], t, pc', n);
  }

  // A pusher's node is not with anyone else; a user's with no pusher.
  lemma PcKnows(s: State, t: Thread)
    requires Inv(s) && t in s.pc
    ensures s.pc[t].Idle? ==> forall n :: n in s.place ==> s.place[n] != Pushing(t)
    ensures !s.pc[t].Idle? ==> s.pc[t].b in s.owner && s.pc[t].b in s.place && s.place[s.pc[t].b] == Pushing(t)
    ensures !s.pc[t].Idle? ==> forall n :: n in s.place && s.place[n] == Pushing(t) ==> n == s.pc[t].b
    ensures s.pc[t].Linked? ==> s.pc[t].b in s.mem && s.mem[s.pc[t].b] == s.pc[t].expected
  {
    hide PoolOk, GridGood, Routed;
    assert PcOk(s, t);
  }

  lemma WriteKeeps(s: State, t: Thread, n: Addr, value: int)
    requires Inv(s) && Enabled(s, Write(t, n, value))
    ensures Inv(Next(s, Write(t, n, value)))
  {
    PcKnows(s, t);
    assert n in s.owner;
    hide Inv, Routes, MaskBase;
    assert s.pc == s.pc[t := s.pc[t]];
    RoamKeeps(s, Next(s, Write(t, n, value)), t, s.pc[t], n);
  }

  lemma HandOverKeeps(s: State, t: Thread, n: Addr, u: Thread)
    requires Inv(s) && Enabled(s, HandOver(t, n, u))
    ensures Inv(Next(s, HandOver(t, n, u)))
  {
    PcKnows(s, t);
    assert n in s.owner;
    hide Inv, Routes, MaskBase;
    assert s.pc == s.pc[t := s.pc[t]];
    RoamKeeps(s, Next(s, HandOver(t, n, u)), t, s.pc[t], n);
  }

  lemma LoadHeadKeeps(s: State, t: Thread, n: Addr)
    requires Inv(s) && Enabled(s, LoadHead(t, n))
    ensures Inv(Next(s, LoadHead(t, n)))
  {
    PcKnows(s, t);
    assert n in s.owner;
    hide Inv, MaskBase;
    var s' := Next(s, LoadHead(t, n));
    RoamKeeps(s, s', t, s'.pc[t], n);
  }

  lemma WriteLinkKeeps(s: State, t: Thread)
    requires Inv(s) && Enabled(s, WriteLink(t))
    ensures Inv(Next(s, WriteLink(t)))
  {
    PcKnows(s, t);
    hide Inv, Routes, MaskBase;
    var s' := Next(s, WriteLink(t));
    RoamKeeps(s, s', t, s'.pc[t], s.pc[t].b);
  }

  lemma CasFailureKeeps(s: State, t: Thread)
    requires Inv(s) && Enabled(s, CasFailure(t))
    ensures Inv(Next(s, CasFailure(t)))
  {
    PcKnows(s, t);
    hide Inv, MaskBase;
    var s' := Next(s, CasFailure(t));
    RoamKeeps(s, s', t, s'.pc[t], s.pc[t].b);
  }

  // ---------- a node that changes lists ----------

  lemma FreedPool(p: Pool, mem: map<Addr, int>, owner: map<Addr, Thread>, place: map<Addr, Place>, o: Thread, n: Addr)
    requires PoolGood(p, mem, owner, place, o) && n in owner && owner[n] == o && n in place && Roaming(place[n])
    requires n != 0
    ensures p.size > 0
    ensures PoolGood(p.(freeHead := n, size := p.size - 1, free := [n] + p.free), mem[n := p.freeHead], owner,
                place[n := Free], o)
  {
    hide Chain, SlotsOf;
    var mem' := mem[n := p.freeHead];
    ChainPush(mem, p.freeHead, p.free, n);
    ChainFrame(mem, mem', p.remoteHead, p.stack);
    ChainFrame(mem, mem', p.cursor, p.batch);
    assert n in Busy(owner, place, o);
    assert Busy(owner, place[n := Free], o) == Busy(owner, place, o) - {n};
  }

  lemma LocalFreeKeeps(s: State, t: Thread, n: Addr)
    requires Inv(s) && Enabled(s, LocalFree(t, n))
    ensures Inv(Next(s, LocalFree(t, n)))
  {
    PcKnows(s, t);
    assert n in s.owner;
    Homeward(s, n);
    hide PcOk, GridGood, Routed, MaskBase, PoolGood, PcGood;
    assert PoolOk(s, t);
    var s', p := Next(s, LocalFree(t, n)), s.pools[t];
    FreedPool(p, s.mem, s.owner, s.place, t, n);
    assert s.pc == s.pc[t := s.pc[t]];
    assert PcOk(s, t);
    OtherPc(s.pc[t], s.mem, s'.mem, s.place, s'.place, t, n);
    NodeStep(s, s', t, s'.pools[t], t, s.pc[t], n);
  }

  lemma IssuedPool(p: Pool, mem: map<Addr, int>, owner: map<Addr, Thread>, place: map<Addr, Place>, o: Thread,
                   t: Thread)
    requires PoolGood(p, mem, owner, place, o) && p.freeHead != 0
    ensures p.free != [] && p.freeHead in mem && At(owner, place, o, p.freeHead, Free)
    ensures PoolGood(p.(freeHead := mem[p.freeHead], size := p.size + 1, free := p.free[1..]), mem, owner,
                place[p.freeHead := User(t)], o)
  {
    hide SlotsOf;
    var n := p.freeHead;
    ChainPop(mem, p.freeHead, p.free);
    hide Chain;
    assert n in p.free;
    assert n !in Busy(owner, place, o);
    assert Busy(owner, place[n := User(t)], o) == Busy(owner, place, o) + {n};
  }

  lemma IssueKeeps(s: State, t: Thread)
    requires Inv(s) && Enabled(s, Issue(t))
    ensures Inv(Next(s, Issue(t)))
  {
    var s', p := Next(s, Issue(t)), s.pools[t];
    var n := p.freeHead;
    assert PoolOk(s, t) && t in s.pc;
    IssuedPool(p, s.mem, s.owner, s.place, t, t);
    assert PcOk(s, t);
    hide PoolGood, PcGood, GridGood, Routed;
    OtherPc(s.pc[t], s.mem, s'.mem, s.place, s'.place, t, n);
    assert s.pc == s.pc[t := s.pc[t]];
    NodeStep(s, s', t, s'.pools[t], t, s.pc[t], n);
  }

  lemma ParkedPool(p: Pool, mem: map<Addr, int>, owner: map<Addr, Thread>, place: map<Addr, Place>, o: Thread, n: Addr)
    requires PoolGood(p, mem, owner, place, o) && n in owner && owner[n] == o && n in place && Roaming(place[n])
    requires n != 0
    requires n in mem && mem[n] == p.remoteHead
    ensures PoolGood(p.(remoteHead := n, stack := [n] + p.stack), mem, owner, place[n := Parked], o)
  {
    hide SlotsOf;
    ChainExtend(mem, p.remoteHead, p.stack, n);
    hide Chain;
    assert Busy(owner, place[n := Parked], o) == Busy(owner, place, o);
  }

  lemma CasKeeps(s: State, t: Thread)
    requires Inv(s) && Enabled(s, CasSuccess(t))
    ensures Inv(Next(s, CasSuccess(t)))
  {
    PcKnows(s, t);
    var b := s.pc[t].b;
    Homeward(s, b);
    var s', o := Next(s, CasSuccess(t)), s.owner[b];
    hide PcOk, GridGood, Routed, MaskBase, PoolGood;
    assert PoolOk(s, o);
    ParkedPool(s.pools[o], s.mem, s.owner, s.place, o, b);
    NodeStep(s, s', o, s'.pools[o], t, Idle, b);
  }

  lemma SplicedPool(p: Pool, mem: map<Addr, int>, owner: map<Addr, Thread>, place: map<Addr, Place>, o: Thread)
    requires PoolGood(p, mem, owner, place, o) && p.cursor != 0
    ensures p.batch != [] && p.cursor in mem && At(owner, place, o, p.cursor, Batch) && p.size > 0
    ensures PoolGood(p.(freeHead := p.cursor, cursor := mem[p.cursor], size := p.size - 1, free := [p.cursor] + p.free,
                  batch := p.batch[1..]),
                     mem[p.cursor := p.freeHead], owner, place[p.cursor := Free], o)
  {
    hide SlotsOf;
    var n := p.cursor;
    ChainPop(mem, n, p.batch);
    hide Chain;
    assert n in p.batch && n !in p.free && n !in p.stack;
    var mem' := mem[n := p.freeHead];
    ChainPush(mem, p.freeHead, p.free, n);
    ChainFrame(mem, mem', p.remoteHead, p.stack);
    ChainFrame(mem, mem', mem[n], p.batch[1..]);
    assert n in Busy(owner, place, o);
    assert Busy(owner, place[n := Free], o) == Busy(owner, place, o) - {n};
  }

  lemma SpliceKeeps(s: State, t: Thread)
    requires Inv(s) && Enabled(s, Splice(t))
    ensures Inv(Next(s, Splice(t)))
  {
    var s', p := Next(s, Splice(t)), s.pools[t];
    var n := p.cursor;
    assert PoolOk(s, t) && t in s.pc;
    SplicedPool(p, s.mem, s.owner, s.place, t);
    assert PcOk(s, t);
    hide PoolGood, PcGood, GridGood, Routed;
    OtherPc(s.pc[t], s.mem, s'.mem, s.place, s'.place, t, n);
    assert s.pc == s.pc[t := s.pc[t]];
    NodeStep(s, s', t, s'.pools[t], t, s.pc[t], n);
  }

  // ---------- the exchange ----------

  lemma ExchangedPool(p: Pool, mem: map<Addr, int>, owner: map<Addr, Thread>, place: map<Addr, Place>,
                      place': map<Addr, Place>, o: Thread)
    requires PoolGood(p, mem, owner, place, o) && p.cursor == 0
    requires place' == map n | n in place :: if n in p.stack then Batch else place[n]
    ensures PoolGood(p.(cursor := p.remoteHead, remoteHead := 0, stack := [], batch := p.stack), mem, owner, place', o)
  {
    hide SlotsOf;
    ChainPop(mem, p.cursor, p.batch);
    assert Chain(mem, 0, []);
    hide Chain;
    forall x: Addr
      ensures x in p.stack <==> At(owner, place', o, x, Batch)
      ensures !At(owner, place', o, x, Parked)
      ensures At(owner, place', o, x, Free) <==> At(owner, place, o, x, Free)
      ensures x in Busy(owner, place', o) <==> x in Busy(owner, place, o)
    {
      assert x in p.stack <==> At(owner, place, o, x, Parked);
      assert x !in p.batch;
    }
    assert Busy(owner, place', o) == Busy(owner, place, o);
  }

  lemma ExchangeElsewhere(p: Pool, q: Pool, mem: map<Addr, int>, owner: map<Addr, Thread>, place: map<Addr, Place>,
                          place': map<Addr, Place>, o: Thread, u: Thread)
    requires PoolGood(p, mem, owner, place, o) && PoolGood(q, mem, owner, place, u) && o != u
    requires place' == map n | n in place :: if n in p.stack then Batch else place[n]
    ensures PoolGood(q, mem, owner, place', u)
  {
    hide SlotsOf, Chain;
    forall x: Addr
      ensures x in Busy(owner, place', u) <==> x in Busy(owner, place, u)
      ensures forall w: Place :: At(owner, place', u, x, w) <==> At(owner, place, u, x, w)
    {
      assert x in p.stack ==> At(owner, place, o, x, Parked);
    }
    assert Busy(owner, place', u) == Busy(owner, place, u);
  }

  lemma ExchangePc(p: Pool, pc: Pc, mem: map<Addr, int>, owner: map<Addr, Thread>, place: map<Addr, Place>,
                   place': map<Addr, Place>, o: Thread, u: Thread)
    requires PoolGood(p, mem, owner, place, o) && PcGood(pc, mem, place, u)
    requires place' == map n | n in place :: if n in p.stack then Batch else place[n]
    ensures PcGood(pc, mem, place', u)
  {
    hide SlotsOf, Chain, Busy;
  }

  lemma ExchangeKeeps(s: State, t: Thread)
    requires Inv(s) && Enabled(s, Exchange(t))
    ensures Inv(Next(s, Exchange(t)))
  {
    hide PoolGood, PcGood, GridGood, Routed;
    var s', p := Next(s, Exchange(t)), s.pools[t];
    assert PoolOk(s, t);
    forall u | u in s'.pools
      ensures PoolOk(s', u)
    {
      assert PoolOk(s, u);
      if u == t {
        ExchangedPool(p, s.mem, s.owner, s.place, s'.place, t);
      } else {
        ExchangeElsewhere(p, s.pools[u], s.mem, s.owner, s.place, s'.place, t, u);
      }
    }
    forall u | u in s'.pc
      ensures PcOk(s', u)
    {
      assert PcOk(s, u);
      ExchangePc(p, s.pc[u], s.mem, s.owner, s.place, s'.place, t, u);
    }
  }

  // ---------- a new chunk ----------

  ghost predicate KeptOutsideOf(before: map<Addr, int>, after: map<Addr, int>, changed: set<Addr>) {
    forall x: Addr {:trigger x in after} {:trigger after[x]} :: x !in changed && x in before ==>
      x in after && after[x] == before[x]
  }

  lemma {:induction false} StampedHeaders(mem: map<Addr, int>, g: Grid, base: nat, k: nat, t: Thread)
    requires g.granule > 0
    ensures KeptOutsideOf(mem, Stamped(mem, g, base, k, t), P.HeaderSet(g, base, k))
    ensures forall h: Addr :: h in P.HeaderSet(g, base, k) ==>
              h in Stamped(mem, g, base, k, t) && Stamped(mem, g, base, k, t)[h] == t
  {
    if k != 0 {
      StampedHeaders(mem, g, base, k - 1, t);
      P.HeaderSetStep(g, base, k - 1);
      var m := Stamped(mem, g, base, k - 1, t);
      assert Stamped(mem, g, base, k, t) == m[g.Header(base, k - 1) := t];
    } else {
      assert Stamped(mem, g, base, 0, t) == mem;
      assert forall h: Addr :: h !in P.HeaderSet(g, base, 0);
    }
  }

  lemma {:induction false} SeededChain(mem: map<Addr, int>, g: Grid, base: nat, n: nat, head: Addr, s: seq<Addr>)
    requires g.Ok() && base > 0 && Chain(mem, head, s)
    requires forall i: nat :: i < n ==> g.At(base, i) !in s && g.At(base, i) > 0
    ensures var m := Seeded(mem, g, base, n, head);
            Chain(m.0, m.1, Seeds(g, base, n) + s) && KeptOutsideOf(mem, m.0, P.NodeSet(g, base, n))
  {
    hide Chain;
    if n == 0 {
      assert Seeds(g, base, 0) == [] && [] + s == s;
    } else {
      SeededChain(mem, g, base, n - 1, head, s);
      var m := Seeded(mem, g, base, n - 1, head);
      var p := g.At(base, n - 1);
      P.NewSeed(g, base, n - 1, s);
      P.NodeSetStep(g, base, n - 1);
      ChainPush(m.0, m.1, Seeds(g, base, n - 1) + s, p);
      assert [p] + (Seeds(g, base, n - 1) + s) == Seeds(g, base, n) + s;
    }
  }

  lemma {:induction false} NodeCount(g: Grid, base: nat, n: nat)
    requires g.Ok()
    ensures |P.NodeSet(g, base, n)| == n
  {
    if n == 0 {
      assert P.NodeSet(g, base, 0) == {};
    } else {
      NodeCount(g, base, n - 1);
      P.NodeSetStep(g, base, n - 1);
      var p := g.At(base, n - 1);
      if p in P.NodeSet(g, base, n - 1) {
        var i: nat :| i < n - 1 && p == g.At(base, i);
        NodesApart(g, base, i, n - 1);
      }
      assert P.NodeSet(g, base, n) == P.NodeSet(g, base, n - 1) + {p};
    }
  }

  /** What holds of the nodes of a new chunk: they and their headers lie in it, and
      masking one leads to a header of it. */
  lemma NewNode(g: Grid, exp: nat, c: Slots, i: nat)
    requires GridGood(g, exp) && c.base > 0 && Divides(g.granule, c.base) && i < c.count
    ensures var n := g.At(c.base, i);
            && n > 0 && Covers(g, c, n)
            && MaskBase(n, exp) in P.HeaderSet(g, c.base, g.GranuleCount(c.count))
            && (forall k: nat :: n != g.Header(c.base, k))
  {
    hide Pow2, Divides, MaskBase;
    WithinChunk(g, c.base, c.count, i, 0);
    MaskedHeader(g, exp, c.base, i);
    assert MaskBase(g.At(c.base, i), exp) == g.Header(c.base, i / g.per);
    forall k: nat
      ensures g.At(c.base, i) != g.Header(c.base, k)
    {
      HeaderFreeOfNodes(g, c.base, i, k);
    }
  }

  lemma MaskedHeader(g: Grid, exp: nat, base: nat, i: nat)
    requires GridGood(g, exp) && Divides(g.granule, base)
    ensures g.At(base, i) >= 0 && MaskBase(g.At(base, i), exp) == base + (i / g.per) * g.granule
  {
    hide Pow2, MaskBase;
    var m :| Product(g.granule, m) == base;
    AtSplits(g, base, i);
    LocalBounds(g, i);
    BaseMultiple(g.granule, m, i / g.per, base);
    ModOfProduct(m + i / g.per, g.Local(i), g.granule);
    ClearBelowIs(g.At(base, i), exp);
  }

  lemma ClearBelowIs(p: nat, e: nat)
    ensures Pow2(e) > 0 && MaskBase(p, e) == p - p % Pow2(e)
  {
    P.ClearBelowIsMask(p, e);
  }

  lemma CoveredHeader(g: Grid, c: Slots, h: Addr)
    requires g.Ok() && h in P.HeaderSet(g, c.base, g.GranuleCount(c.count))
    ensures Covers(g, c, h)
  {
    var k: nat :| k < g.GranuleCount(c.count) && h == g.Header(c.base, k);
    WithinChunk(g, c.base, c.count, 0, k);
  }

  ghost function WithNodes(owner: map<Addr, Thread>, nodes: set<Addr>, t: Thread): map<Addr, Thread> {
    map n | n in owner.Keys + nodes :: if n in owner then owner[n] else t
  }

  ghost function WithFree(place: map<Addr, Place>, nodes: set<Addr>): map<Addr, Place> {
    map n | n in place.Keys + nodes :: if n in place then place[n] else Free
  }

  /** A chunk whose nodes and headers are new: what it writes, and where they lead. */
  ghost predicate NewChunk(s: State, c: Slots, t: Thread, mem': map<Addr, int>, nodes: set<Addr>, headers: set<Addr>) {
    && KeptOutsideOf(s.mem, mem', nodes + headers)
    && (forall n: Addr {:trigger n in nodes} :: n in nodes ==>
          n > 0 && n !in s.owner && n !in headers && MaskBase(n, s.exp) in headers)
    && (forall h: Addr {:trigger h in headers} :: h in headers ==> h in mem' && mem'[h] == t && h !in s.owner)
    && (forall n: Addr {:trigger n in s.owner} :: n in s.owner && n > 0 ==>
           MaskBase(n, s.exp) !in nodes && MaskBase(n, s.exp) !in headers)
  }

  lemma NewRouted(s: State, c: Slots, t: Thread, mem': map<Addr, int>, nodes: set<Addr>, headers: set<Addr>)
    requires NewChunk(s, c, t, mem', nodes, headers) && Routed(s.mem, s.owner, s.exp)
    ensures Routed(mem', WithNodes(s.owner, nodes, t), s.exp)
  {
    hide MaskBase;
    var owner := WithNodes(s.owner, nodes, t);
    forall n: Addr {:trigger n in owner} | n in owner
      ensures n > 0 && MaskBase(n, s.exp) in mem' && mem'[MaskBase(n, s.exp)] == owner[n]
      ensures MaskBase(n, s.exp) !in owner
    {
      if n in s.owner {
        var h := MaskBase(n, s.exp);
        assert h !in nodes + headers;
      } else {
        assert n in nodes;
      }
    }
  }

  lemma ListKept(mem: map<Addr, int>, mem': map<Addr, int>, head: Addr, list: seq<Addr>, owner: map<Addr, Thread>,
                 changed: set<Addr>)
    requires Chain(mem, head, list) && KeptOutsideOf(mem, mem', changed)
    requires forall n: Addr :: n in list ==> n in owner && n !in changed
    ensures Chain(mem', head, list)
  {
    hide Chain;
    ChainFrame(mem, mem', head, list);
  }

  // What the owners and places of a pool become.
  lemma Extended(owner: map<Addr, Thread>, place: map<Addr, Place>, nodes: set<Addr>, t: Thread, u: Thread)
    requires owner.Keys == place.Keys && forall n: Addr :: n in nodes ==> n !in owner
    ensures var owner', place' := WithNodes(owner, nodes, t), WithFree(place, nodes);
            && (forall x: Addr, w: Place :: At(owner', place', u, x, w) <==>
                   At(owner, place, u, x, w) || (x in nodes && u == t && w == Free))
            && Busy(owner', place', u) == Busy(owner, place, u)
            && SlotsOf(owner', u) == SlotsOf(owner, u) + (if u == t then nodes else {}) && SlotsOf(owner, u) !! nodes
  {
    var owner', place' := WithNodes(owner, nodes, t), WithFree(place, nodes);
    forall x: Addr
      ensures x in Busy(owner', place', u) <==> x in Busy(owner, place, u)
      ensures x in SlotsOf(owner', u) <==> x in SlotsOf(owner, u) || (u == t && x in nodes)
      ensures x in SlotsOf(owner, u) ==> x !in nodes
    {
    }
    assert Busy(owner', place', u) == Busy(owner, place, u);
    assert SlotsOf(owner', u) == SlotsOf(owner, u) + (if u == t then nodes else {});
  }

  lemma ListsKept(s: State, c: Slots, t: Thread, mem': map<Addr, int>, nodes: set<Addr>, headers: set<Addr>, u: Thread)
    requires NewChunk(s, c, t, mem', nodes, headers) && u in s.pools && PoolOk(s, u)
    ensures var p := s.pools[u];
            Chain(mem', p.freeHead, p.free) && Chain(mem', p.remoteHead, p.stack) && Chain(mem', p.cursor, p.batch)
    ensures forall n: Addr :: n in nodes ==> n !in s.owner
  {
    hide Chain, MaskBase, Busy, SlotsOf;
    var p := s.pools[u];
    forall n: Addr
      ensures n in p.free || n in p.stack || n in p.batch ==> n in s.owner && n !in nodes + headers
    {
      assert n in p.free ==> At(s.owner, s.place, u, n, Free);
      assert n in p.stack ==> At(s.owner, s.place, u, n, Parked);
      assert n in p.batch ==> At(s.owner, s.place, u, n, Batch);
    }
    ListKept(s.mem, mem', p.freeHead, p.free, s.owner, nodes + headers);
    ListKept(s.mem, mem', p.remoteHead, p.stack, s.owner, nodes + headers);
    ListKept(s.mem, mem', p.cursor, p.batch, s.owner, nodes + headers);
  }

  lemma OldPool(s: State, c: Slots, t: Thread, mem': map<Addr, int>, nodes: set<Addr>, headers: set<Addr>, u: Thread)
    requires NewChunk(s, c, t, mem', nodes, headers) && u in s.pools && PoolOk(s, u) && u != t
    requires s.owner.Keys == s.place.Keys
    ensures PoolGood(s.pools[u], mem', WithNodes(s.owner, nodes, t), WithFree(s.place, nodes), u)
  {
    hide Chain, NewChunk, At, Busy, SlotsOf, WithNodes, WithFree;
    ListsKept(s, c, t, mem', nodes, headers, u);
    Extended(s.owner, s.place, nodes, t, u);
    assert SlotsOf(s.owner, u) + {} == SlotsOf(s.owner, u);
  }

  lemma GrownPool(s: State, c: Slots, t: Thread, mem': map<Addr, int>, nodes: set<Addr>, headers: set<Addr>,
                  head': Addr, seeds: seq<Addr>)
    requires NewChunk(s, c, t, mem', nodes, headers) && t in s.pools && PoolOk(s, t) && s.owner.Keys == s.place.Keys
    requires Chain(mem', head', seeds + s.pools[t].free) && |nodes| == c.count
    requires forall n: Addr :: n in seeds <==> n in nodes
    ensures var p := s.pools[t];
            PoolGood(p.(freeHead := head', capacity := p.capacity + c.count, free := seeds + p.free),
                     mem', WithNodes(s.owner, nodes, t), WithFree(s.place, nodes), t)
  {
    hide Chain, NewChunk, At, Busy, SlotsOf, WithNodes, WithFree;
    ListsKept(s, c, t, mem', nodes, headers, t);
    Extended(s.owner, s.place, nodes, t, t);
  }

  lemma OldPc(s: State, c: Slots, t: Thread, mem': map<Addr, int>, nodes: set<Addr>, headers: set<Addr>, u: Thread)
    requires NewChunk(s, c, t, mem', nodes, headers) && u in s.pc && PcOk(s, u) && s.owner.Keys == s.place.Keys
    ensures PcGood(s.pc[u], mem', WithFree(s.place, nodes), u)
  {
    hide MaskBase;
  }

  // The chunk that the step lays out is such a new chunk.
  lemma LaidOut(s: State, t: Thread, c: Slots)
    requires Inv(s) && t in s.pools && s.grid.per > 0 && Fresh(s, c)
    ensures var m := Seeded(Stamped(s.mem, s.grid, c.base, s.grid.GranuleCount(c.count), t), s.grid, c.base, c.count,
                s.pools[t].freeHead);
            var nodes, headers := NodesOf(s.grid, c), P.HeaderSet(s.grid, c.base, s.grid.GranuleCount(c.count));
            && NewChunk(s, c, t, m.0, nodes, headers) && |nodes| == c.count
            && Chain(m.0, m.1, Seeds(s.grid, c.base, c.count) + s.pools[t].free)
            && (forall n: Addr :: n in Seeds(s.grid, c.base, c.count) <==> n in nodes)
  {
    hide MaskBase, PcOk, PoolOk, Pow2, Divides, P.HeaderSet, P.NodeSet, Seeded, Stamped, NewChunk, Chain, Routed;
    var g, p := s.grid, s.pools[t];
    var nodes, headers := NodesOf(g, c), P.HeaderSet(g, c.base, g.GranuleCount(c.count));
    var m1 := Stamped(s.mem, g, c.base, g.GranuleCount(c.count), t);
    NewNodes(g, s.exp, c);
    StampedHeaders(s.mem, g, c.base, g.GranuleCount(c.count), t);
    OldNodes(s, c);
    FreeAreOld(s, t);
    hide Inv, Fresh, Covers;
    ListKept(s.mem, m1, p.freeHead, p.free, s.owner, headers) by {
      assert forall n: Addr :: n in p.free ==> n in s.owner && !Covers(g, c, n);
    }
    forall i: nat | i < c.count
      ensures g.At(c.base, i) !in p.free && g.At(c.base, i) > 0
    {
      assert g.At(c.base, i) in nodes by { InNodes(g, c, i); }
    }
    SeededChain(m1, g, c.base, c.count, p.freeHead, p.free);
    NodeCount(g, c.base, c.count);
    forall n: Addr
      ensures n in Seeds(g, c.base, c.count) <==> n in nodes
    {
      P.SeedsAreNodes(g, c.base, c.count, n);
    }
    var m := Seeded(m1, g, c.base, c.count, p.freeHead);
    IsNewChunk(s, c, t, m1, m.0, nodes, headers);
  }

  lemma FreeAreOld(s: State, t: Thread)
    requires Inv(s) && t in s.pools
    ensures Chain(s.mem, s.pools[t].freeHead, s.pools[t].free)
    ensures forall n: Addr :: n in s.pools[t].free ==> n in s.owner
  {
    hide Chain, PcOk, Routed, GridGood, Busy, SlotsOf;
    assert PoolOk(s, t);
  }

  lemma IsNewChunk(s: State, c: Slots, t: Thread, m1: map<Addr, int>, m2: map<Addr, int>, nodes: set<Addr>,
                   headers: set<Addr>)
    requires s.grid.per > 0 && KeptOutsideOf(s.mem, m1, headers) && KeptOutsideOf(m1, m2, nodes)
    requires forall h: Addr :: h in headers ==> h in m1 && m1[h] == t
    requires forall n: Addr {:trigger n in nodes} :: n in nodes ==>
               n > 0 && Covers(s.grid, c, n) && n !in headers && MaskBase(n, s.exp) in headers
    requires forall h: Addr :: h in headers ==> Covers(s.grid, c, h)
    requires forall n: Addr {:trigger n in s.owner} :: n in s.owner ==>
               n > 0 && !Covers(s.grid, c, n) && !Covers(s.grid, c, MaskBase(n, s.exp))
    ensures NewChunk(s, c, t, m2, nodes, headers)
  {
    hide MaskBase, Covers;
  }

  lemma InNodes(g: Grid, c: Slots, i: nat)
    requires g.per > 0 && i < c.count
    ensures g.At(c.base, i) in NodesOf(g, c)
  {
  }

  lemma NewNodes(g: Grid, exp: nat, c: Slots)
    requires GridGood(g, exp) && c.base > 0 && Divides(g.granule, c.base)
    ensures forall n: Addr {:trigger n in NodesOf(g, c)} :: n in NodesOf(g, c) ==>
              && n > 0 && Covers(g, c, n) && n !in P.HeaderSet(g, c.base, g.GranuleCount(c.count))
              && MaskBase(n, exp) in P.HeaderSet(g, c.base, g.GranuleCount(c.count))
    ensures forall h: Addr :: h in P.HeaderSet(g, c.base, g.GranuleCount(c.count)) ==> Covers(g, c, h)
  {
    hide MaskBase, Pow2, Divides;
    forall n: Addr | n in NodesOf(g, c)
      ensures n > 0 && Covers(g, c, n) && n !in P.HeaderSet(g, c.base, g.GranuleCount(c.count))
      ensures n > 0 ==> MaskBase(n, exp) in P.HeaderSet(g, c.base, g.GranuleCount(c.count))
    {
      var i: nat :| i < c.count && n == g.At(c.base, i);
      NewNode(g, exp, c, i);
    }
    forall h: Addr | h in P.HeaderSet(g, c.base, g.GranuleCount(c.count))
      ensures Covers(g, c, h)
    {
      CoveredHeader(g, c, h);
    }
  }

  // Nothing that was there is covered by it.
  lemma OldNodes(s: State, c: Slots)
    requires Inv(s) && s.grid.per > 0 && Fresh(s, c)
    ensures forall n: Addr {:trigger n in s.owner} :: n in s.owner ==>
              n > 0 && !Covers(s.grid, c, n) && !Covers(s.grid, c, MaskBase(n, s.exp))
  {
    hide PoolOk, PcOk, GridGood, MaskBase, Divides;
  }

  lemma AddChunkNext(s: State, t: Thread, c: Slots)
    requires Enabled(s, AddChunk(t, c))
    ensures var s' := Next(s, AddChunk(t, c));
            var m := Seeded(Stamped(s.mem, s.grid, c.base, s.grid.GranuleCount(c.count), t), s.grid, c.base, c.count,
                s.pools[t].freeHead);
            var p := s.pools[t];
            && s'.grid == s.grid && s'.exp == s.exp && s'.pc == s.pc && s'.mem == m.0
            && s'.pools == s.pools[t := p.(freeHead := m.1, capacity := p.capacity + c.count,
                     free := Seeds(s.grid, c.base, c.count) + p.free)]
            && s'.owner == WithNodes(s.owner, NodesOf(s.grid, c), t) &&
               s'.place == WithFree(s.place, NodesOf(s.grid, c))
  {
    hide Seeded, Stamped, P.NodeSet, Seeds;
  }

  lemma KeysExtended(owner: map<Addr, Thread>, place: map<Addr, Place>, nodes: set<Addr>, t: Thread)
    requires owner.Keys == place.Keys
    ensures WithNodes(owner, nodes, t).Keys == WithFree(place, nodes).Keys
    ensures forall n :: n in WithNodes(owner, nodes, t) ==>
              WithNodes(owner, nodes, t)[n] == t || (n in owner && WithNodes(owner, nodes, t)[n] == owner[n])
    ensures forall n :: n in WithFree(place, nodes) && WithFree(place, nodes)[n].Pushing? ==>
              n in place && WithFree(place, nodes)[n] == place[n]
  {
  }

  /** Laying out a new chunk keeps the invariant if it keeps the pool it is for. */
  lemma ChunkStep(s: State, s': State, t: Thread, c: Slots, nodes: set<Addr>, headers: set<Addr>, p': Pool)
    requires Inv(s) && t in s.pools && NewChunk(s, c, t, s'.mem, nodes, headers)
    requires s'.grid == s.grid && s'.exp == s.exp && s'.pc == s.pc && s'.pools == s.pools[t := p']
    requires s'.owner == WithNodes(s.owner, nodes, t) && s'.place == WithFree(s.place, nodes)
    requires PoolGood(p', s'.mem, s'.owner, s'.place, t)
    ensures Inv(s')
  {
    hide PoolGood, PcGood, GridGood, NewChunk, WithNodes, WithFree, Routed;
    NewRouted(s, c, t, s'.mem, nodes, headers);
    KeysExtended(s.owner, s.place, nodes, t);
    forall u | u in s'.pools
      ensures PoolOk(s', u)
    {
      if u != t {
        assert PoolOk(s, u);
        OldPool(s, c, t, s'.mem, nodes, headers, u);
      }
    }
    forall u | u in s'.pc
      ensures PcOk(s', u)
    {
      assert PcOk(s, u);
      OldPc(s, c, t, s'.mem, nodes, headers, u);
    }
  }

  lemma AddChunkKeeps(s: State, t: Thread, c: Slots)
    requires Inv(s) && Enabled(s, AddChunk(t, c))
    ensures Inv(Next(s, AddChunk(t, c)))
  {
    KnowsPool(s, t);
    LaidOut(s, t, c);
    AddChunkNext(s, t, c);
    var s', g := Next(s, AddChunk(t, c)), s.grid;
    hide Inv, Enabled, Next, PoolGood, NewChunk, NodesOf, P.HeaderSet, Fresh, Seeded, Stamped, Chain, Seeds, WithNodes;
    hide WithFree;
    var nodes, headers := NodesOf(g, c), P.HeaderSet(g, c.base, g.GranuleCount(c.count));
    GrownPool(s, c, t, s'.mem, nodes, headers, s'.pools[t].freeHead, Seeds(g, c.base, c.count));
    ChunkStep(s, s', t, c, nodes, headers, s'.pools[t]);
  }

  lemma KnowsPool(s: State, t: Thread)
    requires Inv(s) && t in s.pools
    ensures PoolOk(s, t) && s.owner.Keys == s.place.Keys
  {
    hide PoolOk, PcOk, Routed, GridGood;
  }

  lemma CreateKeeps(s: State, t: Thread)
    requires Inv(s) && Enabled(s, Create(t))
    ensures Inv(Next(s, Create(t)))
  {
    var s' := Next(s, Create(t));
    NoNodes(s, t);
    hide PoolGood, PcGood, GridGood, Routed;
    forall u | u in s'.pools
      ensures PoolOk(s', u)
    {
      if u != t {
        assert PoolOk(s, u);
      }
    }
    forall u | u in s'.pc
      ensures PcOk(s', u)
    {
      if u != t {
        assert PcOk(s, u);
      }
    }
  }

  lemma NoNodes(s: State, t: Thread)
    requires Inv(s) && t !in s.pools
    ensures PoolGood(Pool(0, 0, 0, 0, 0, [], [], []), s.mem, s.owner, s.place, t)
    ensures PcGood(Idle, s.mem, s.place, t)
  {
    hide PoolOk, PcOk, Routed, GridGood;
    assert forall n :: n in s.owner ==> s.owner[n] != t;
    assert forall n: Addr :: n !in Busy(s.owner, s.place, t) && n !in SlotsOf(s.owner, t);
    assert Busy(s.owner, s.place, t) == {} && SlotsOf(s.owner, t) == {};
  }

  // ---------- runs ----------

  /** Every step of every thread keeps the invariant. */
  lemma StepKeeps(s: State, step: Step)
    requires Inv(s) && Enabled(s, step)
    ensures Inv(Next(s, step))
  {
    hide Inv, Enabled, Next;
    match step {
      case Create(t) => CreateKeeps(s, t);
      case AddChunk(t, c) => AddChunkKeeps(s, t, c);
      case Issue(t) => IssueKeeps(s, t);
      case Write(t, n, value) => WriteKeeps(s, t, n, value);
      case HandOver(t, n, u) => HandOverKeeps(s, t, n, u);
      case LocalFree(t, n) => LocalFreeKeeps(s, t, n);
      case LoadHead(t, n) => LoadHeadKeeps(s, t, n);
      case WriteLink(t) => WriteLinkKeeps(s, t);
      case CasSuccess(t) => CasKeeps(s, t);
      case CasFailure(t) => CasFailureKeeps(s, t);
      case Exchange(t) => ExchangeKeeps(s, t);
      case Splice(t) => SpliceKeeps(s, t);
    }
  }

  // The step takes node n from the user who has it.
  predicate LeavesUser(step: Step, n: Addr) {
    (step.HandOver? || step.LocalFree? || step.LoadHead?) && step.n == n
  }

  /** The life of a node: free, with one user after another, being pushed, parked, in its
      pool's batch, free again. Each change of place is made by the one step whose business
      it is, and whoever acts, no other node moves. */
  lemma Lifecycle(s: State, step: Step, n: Addr, u: Thread)
    requires Inv(s) && Enabled(s, step) && n in s.place && n in s.owner
    ensures var p, q := s.place[n], Next(s, step).place;
            && n in q
            && (q[n] == User(u) <==>
                  || (step == Issue(u) && s.pools[u].freeHead == n) || (step.HandOver? && step.n == n && step.u == u)
                  || (p == User(u) && !LeavesUser(step, n)))
            && (q[n] == Pushing(u) <==> step == LoadHead(u, n) || (p == Pushing(u) && step != CasSuccess(u)))
            && (q[n] == Parked <==>
                  (step.CasSuccess? && p == Pushing(step.t)) || (p == Parked && step != Exchange(s.owner[n])))
            && (q[n] == Batch <==>
                  || (step == Exchange(s.owner[n]) && p == Parked)
                  || (p == Batch && !(step.Splice? && s.pools[step.t].cursor == n)))
  {
    if step.Issue? {
      assert PoolOk(s, step.t);
      IssuedPool(s.pools[step.t], s.mem, s.owner, s.place, step.t, step.t);
    } else if step.Splice? {
      assert PoolOk(s, step.t);
      SplicedPool(s.pools[step.t], s.mem, s.owner, s.place, step.t);
    } else if step.Exchange? {
      assert PoolOk(s, step.t);
      hide Chain, Busy, SlotsOf;
    } else if step.CasSuccess? {
      PcKnows(s, step.t);
    }
    hide Inv, Chain, Routes, MaskBase, Fresh, NodesOf, Seeded, Stamped, Seeds;
  }

  ghost predicate Reaches(s: State, steps: seq<Step>, end: State)
    decreases |steps|
  {
    if steps == [] then s == end else Enabled(s, steps[0]) && Reaches(Next(s, steps[0]), steps[1..], end)
  }

  lemma {:induction false} RunKeeps(s: State, steps: seq<Step>, end: State)
    requires Inv(s) && Reaches(s, steps, end)
    ensures Inv(end)
    decreases |steps|
  {
    hide Inv, Enabled, Next;
    if steps == [] {
    } else {
      StepKeeps(s, steps[0]);
      RunKeeps(Next(s, steps[0]), steps[1..], end);
    }
  }

  /** A chunk that lies where nothing is yet brings its pool all its slots: they are free,
      they are its own, and masking their addresses leads to its name. */
  lemma ChunkArrives(s: State, t: Thread, c: Slots)
    requires Inv(s) && t in s.pools && s.grid.per > 0 && Fresh(s, c)
    ensures Enabled(s, AddChunk(t, c))
    ensures var s' := Next(s, AddChunk(t, c));
            && s'.pools.Keys == s.pools.Keys && (forall u :: u in s.pools && u != t ==> s'.pools[u] == s.pools[u])
            && s'.pools[t].capacity == s.pools[t].capacity + c.count && s'.pools[t].size == s.pools[t].size
            && |s'.pools[t].free| == |s.pools[t].free| + c.count
            && (forall i :: 0 <= i < c.count ==> Brought(s, s', t, s.grid.At(c.base, i)))
            && (forall n: Addr :: n in s.place ==> n in s'.place && s'.place[n] == s.place[n])
  {
    hide PoolGood, PcOk, GridGood, Routed, MaskBase, Seeded, Stamped, Seeds, Fresh, Routes, Home;
    AddChunkKeeps(s, t, c);
    var s' := Next(s, AddChunk(t, c));
    forall i | 0 <= i < c.count
      ensures Brought(s, s', t, s.grid.At(c.base, i))
    {
      var n := s.grid.At(c.base, i);
      SlotIsNode(s.grid, c, i);
      SlotIsNew(s, c, i);
      Homeward(s', n);
    }
  }

  ghost predicate Brought(s: State, s': State, t: Thread, n: Addr) {
    n !in s.place && n in s'.place && s'.place[n] == Free && n in s'.owner && s'.owner[n] == t && Routes(s', n) &&
              Home(s', n) == t
  }

  lemma SlotIsNode(g: Grid, c: Slots, i: nat)
    requires g.per > 0 && i < c.count
    ensures g.At(c.base, i) in NodesOf(g, c)
  {
  }

  lemma SlotIsNew(s: State, c: Slots, i: nat)
    requires Inv(s) && s.grid.per > 0 && Fresh(s, c) && i < c.count
    ensures s.grid.At(c.base, i) !in s.owner && s.grid.At(c.base, i) !in s.place
  {
    hide PoolOk, PcOk, Routed, MaskBase;
    WithinChunk(s.grid, c.base, c.count, i, 0);
  }

  // ---------- the end of a drain ----------

  function Splicings(t: Thread, n: nat): (r: seq<Step>)
    ensures |r| == n
  {
    if n == 0 then [] else [Splice(t)] + Splicings(t, n - 1)
  }

  /** The batch of thread t's pool has gone onto its free list, the node parked first now
      first, and the counter with it; stack, capacity and every other pool are as before. */
  ghost predicate DrainedInto(s: State, t: Thread, s': State) {
    && t in s.pools && s'.pools.Keys == s.pools.Keys && (forall u :: u in s.pools && u != t ==>
              s'.pools[u] == s.pools[u])
    && s'.pc == s.pc && s'.owner == s.owner && s'.place.Keys == s.place.Keys
    && var p, q := s.pools[t], s'.pools[t];
    && q.cursor == 0 && q.batch == [] && q.free == Reversed(p.batch, |p.batch|) + p.free
    && q.size == p.size - |p.batch| && q.capacity == p.capacity
    && q.stack == p.stack && q.remoteHead == p.remoteHead
    && (forall n: Addr :: n in s.place ==> s'.place[n] == if n in p.batch then Free else s.place[n])
  }

  // One node of the batch goes onto the free list.
  lemma SpliceAhead(s: State, t: Thread)
    requires Inv(s) && t in s.pools
    ensures s.pools[t].cursor == 0 <==> s.pools[t].batch == []
    ensures s.pools[t].batch != [] ==> Enabled(s, Splice(t)) && SplicedInto(s, t, Next(s, Splice(t)))
  {
    hide PcOk, GridGood, Routed, MaskBase;
    var p := s.pools[t];
    assert PoolOk(s, t);
    if p.batch != [] {
      ChainPop(s.mem, p.cursor, p.batch);
      SplicedPool(p, s.mem, s.owner, s.place, t);
    }
  }

  ghost predicate SplicedInto(s: State, t: Thread, s': State) {
    && t in s.pools && s.pools[t].batch != [] && t in s'.pools
    && s'.pc == s.pc && s'.owner == s.owner
    && var p, n := s.pools[t], s.pools[t].batch[0];
    && n in s.place && n !in p.batch[1..] && s'.place == s.place[n := Free]
    && s'.pools == s.pools[t := p.(freeHead := n, cursor := s'.pools[t].cursor, size := s'.pools[t].size,
                                   free := [n] + p.free, batch := p.batch[1..])]
    && s'.pools[t].size == p.size - 1
  }

  lemma SplicedThenDrained(s: State, t: Thread, n: State, s': State)
    requires SplicedInto(s, t, n) && DrainedInto(n, t, s')
    ensures DrainedInto(s, t, s')
  {
    var p := s.pools[t];
    ReversedTail(p.batch, |p.batch| - 1);
    hide Reversed;
    var r := Reversed(p.batch[1..], |p.batch| - 1);
    assert r + [p.batch[0]] + p.free == r + ([p.batch[0]] + p.free);
    assert forall x: Addr :: x in p.batch <==> x == p.batch[0] || x in p.batch[1..];
  }

  /** The owner's walk ends, after exactly as many steps as it took nodes. */
  lemma {:induction false} DrainEnds(s: State, t: Thread) returns (s': State)
    requires Inv(s) && t in s.pools
    ensures Reaches(s, Splicings(t, |s.pools[t].batch|), s')
    ensures Inv(s') && DrainedInto(s, t, s')
    decreases |s.pools[t].batch|
  {
    hide Inv, Enabled, Next, SplicedInto;
    var p := s.pools[t];
    SpliceAhead(s, t);
    if p.batch == [] {
      s' := s;
      var none: seq<Addr> := [];
      assert none + p.free == p.free;
    } else {
      SpliceKeeps(s, t);
      var n := Next(s, Splice(t));
      assert t in n.pools && n.pools[t].batch == p.batch[1..] by {
        BatchShrinks(s, t, n);
      }
      s' := DrainEnds(n, t);
      hide DrainedInto;
      SplicedThenDrained(s, t, n, s');
      assert Splicings(t, |p.batch|)[1..] == Splicings(t, |n.pools[t].batch|);
    }
  }

  /** A drain that no push comes into: the exchange and as many splices as there are
      parked nodes make them all free, and leave the stack empty. */
  lemma WholeDrain(s: State, t: Thread) returns (s': State)
    requires Inv(s) && Enabled(s, Exchange(t))
    ensures Reaches(s, [Exchange(t)] + Splicings(t, |s.pools[t].stack|), s') && Inv(s') && t in s'.pools
    ensures var p, q := s.pools[t], s'.pools[t];
            && q.remoteHead == 0 && q.stack == [] && q.cursor == 0 && q.batch == []
            && q.free == Reversed(p.stack, |p.stack|) + p.free
            && q.size == p.size - |p.stack| && q.capacity == p.capacity
            && (forall u :: u in s.pools && u != t ==> u in s'.pools && s'.pools[u] == s.pools[u])
            && (forall n: Addr :: n in s.place ==>
                      n in s'.place && s'.place[n] == if n in p.stack then Free else s.place[n])
  {
    hide PoolGood, PcOk, GridGood, Routed, MaskBase, Reversed;
    var a := Next(s, Exchange(t));
    ExchangeKeeps(s, t);
    assert PoolOk(s, t);
    PoolChains(s.pools[t], s.mem, s.owner, s.place, t);
    ChainPop(s.mem, s.pools[t].cursor, s.pools[t].batch);
    hide Inv, Chain;
    s' := DrainEnds(a, t);
    assert ([Exchange(t)] + Splicings(t, |s.pools[t].stack|))[1..] == Splicings(t, |a.pools[t].batch|);
  }

  lemma BatchShrinks(s: State, t: Thread, n: State)
    requires SplicedInto(s, t, n)
    ensures t in n.pools && n.pools[t].batch == s.pools[t].batch[1..]
  {
  }

  // ---------- progress of a push ----------

  /** Node n heads the remote stack that its owner had, linked to the old head, and
      nothing else has moved. */
  ghost predicate PushedOnto(s: State, t: Thread, n: Addr, s': State) {
    && n in s.owner && s.owner[n] in s.pools
    && var o, p := s.owner[n], s.pools[s.owner[n]];
    && s'.pools == s.pools[o := p.(remoteHead := n, stack := [n] + p.stack)]
    && s'.mem == s.mem[n := p.remoteHead] && Chain(s'.mem, n, [n] + p.stack)
    && s'.place == s.place[n := Parked] && s'.pc == s.pc[t := Idle] && s'.owner == s.owner
  }

  /** A retry gets there: a failed compare-exchange has reloaded the head, so the next
      try succeeds if nothing comes between. */
  lemma RetrySucceeds(s: State, t: Thread) returns (s': State)
    requires Inv(s) && Enabled(s, CasFailure(t))
    ensures Reaches(s, [CasFailure(t), WriteLink(t), CasSuccess(t)], s')
    ensures Inv(s') && PushedOnto(s, t, s.pc[t].b, s')
  {
    hide PoolOk, PcOk, GridGood, Routed, MaskBase;
    PcKnows(s, t);
    Homeward(s, s.pc[t].b);
    CasFailureKeeps(s, t);
    var a := Next(s, CasFailure(t));
    s' := LinkAndSwap(a, t);
    assert a.pc[t := Idle] == s.pc[t := Idle];
    ThreeSteps(s, CasFailure(t), WriteLink(t), CasSuccess(t));
  }

  /** A push that nothing comes between succeeds at its first try. */
  lemma PushSucceeds(s: State, t: Thread, n: Addr) returns (s': State)
    requires Inv(s) && Enabled(s, LoadHead(t, n))
    ensures Reaches(s, [LoadHead(t, n), WriteLink(t), CasSuccess(t)], s')
    ensures Inv(s') && PushedOnto(s, t, n, s')
  {
    hide PoolOk, PcOk, GridGood, Routed, MaskBase;
    assert n in s.owner;
    Homeward(s, n);
    LoadHeadKeeps(s, t, n);
    var a := Next(s, LoadHead(t, n));
    s' := LinkAndSwap(a, t);
    assert a.pc[t := Idle] == s.pc[t := Idle] && a.place[n := Parked] == s.place[n := Parked];
    ThreeSteps(s, LoadHead(t, n), WriteLink(t), CasSuccess(t));
  }

  // From a head just loaded.
  lemma LinkAndSwap(s: State, t: Thread) returns (s': State)
    requires Inv(s) && t in s.pc && s.pc[t].Loaded? && s.pc[t].b in s.owner && s.owner[s.pc[t].b] in s.pools
    requires s.pc[t].expected == s.pools[s.owner[s.pc[t].b]].remoteHead
    ensures Enabled(s, WriteLink(t)) && Enabled(Next(s, WriteLink(t)), CasSuccess(t))
    ensures s' == Next(Next(s, WriteLink(t)), CasSuccess(t)) && Inv(s') && PushedOnto(s, t, s.pc[t].b, s')
  {
    hide PoolGood, PcOk, GridGood, Routed, MaskBase;
    var n, o := s.pc[t].b, s.owner[s.pc[t].b];
    WriteLinkKeeps(s, t);
    var a := Next(s, WriteLink(t));
    Homeward(a, n);
    CasKeeps(a, t);
    s' := Next(a, CasSuccess(t));
    assert PoolOk(s', o);
    hide Inv, Routes;
    PoolChains(s'.pools[o], s'.mem, s'.owner, s'.place, o);
  }

  lemma PoolChains(p: Pool, mem: map<Addr, int>, owner: map<Addr, Thread>, place: map<Addr, Place>, t: Thread)
    requires PoolGood(p, mem, owner, place, t)
    ensures Chain(mem, p.freeHead, p.free) && Chain(mem, p.remoteHead, p.stack) && Chain(mem, p.cursor, p.batch)
  {
  }

  lemma ThreeSteps(s: State, x: Step, y: Step, z: Step)
    requires Enabled(s, x) && Enabled(Next(s, x), y) && Enabled(Next(Next(s, x), y), z)
    ensures Reaches(s, [x, y, z], Next(Next(Next(s, x), y), z))
  {
    hide Enabled, Next;
    var a := Next(s, x);
    var b := Next(a, y);
    assert [x, y, z][1..] == [y, z] && [y, z][1..] == [z] && [z][1..] == [];
    assert Reaches(Next(b, z), [], Next(b, z));
    assert Reaches(b, [z], Next(b, z));
    assert Reaches(a, [y, z], Next(b, z));
  }

  // ---------- nodes never overlap ----------

  /** The node has its place in the granule that masking finds. */
  predicate Sits(g: Grid, exp: nat, n: Addr) {
    n >= 0 && g.node > 0 && g.granule > 0
    && var b := MaskBase(n, exp);
       && b % g.granule == 0 && b + g.offset <= n && n + g.node <= b + g.granule
       && (n - b - g.offset) % g.node == 0
  }

  ghost predicate Seated(s: State) {
    forall n :: n in s.owner ==> Sits(s.grid, s.exp, n)
  }

  lemma MultiplesApart(x: int, y: int, d: nat)
    requires d > 0 && x % d == 0 && y % d == 0 && x < y
    ensures x + d <= y
  {
    var p, q := x / d, y / d;
    assert x == p * d && y == q * d;
    if q <= p {
      MulMonotone(q, p, d);
    } else {
      MulMonotone(p + 1, q, d);
      assert (p + 1) * d == p * d + d;
    }
  }

  /** Nodes that have their places in their granules do not overlap. */
  lemma NodesNeverMeet(g: Grid, exp: nat, n: Addr, k: Addr)
    requires Sits(g, exp, n) && Sits(g, exp, k) && n < k
    ensures n + g.node <= k
  {
    hide MaskBase;
    var b, d := MaskBase(n, exp), MaskBase(k, exp);
    if b == d {
      MultiplesApart(n - b - g.offset, k - b - g.offset, g.node);
    } else if b < d {
      MultiplesApart(b, d, g.granule);
    } else {
      MultiplesApart(d, b, g.granule);
    }
  }

  lemma NodeSits(g: Grid, exp: nat, base: nat, i: nat)
    requires GridGood(g, exp) && Divides(g.granule, base)
    ensures Sits(g, exp, g.At(base, i))
  {
    var m :| Product(g.granule, m) == base;
    BaseMultiple(g.granule, m, i / g.per, base);
    MaskOfSlot(g, base, i, m, exp);
    LocalBounds(g, i);
    var q, r := m + i / g.per, i % g.per;
    ModOfProduct(q, 0, g.granule);
    ModOfProduct(r, 0, g.node);
    hide MaskBase, Pow2;
    assert g.At(base, i) - MaskBase(g.At(base, i), exp) - g.offset == r * g.node;
  }

  lemma StepSeats(s: State, step: Step)
    requires Inv(s) && Enabled(s, step) && Seated(s)
    ensures Seated(Next(s, step))
  {
    var s' := Next(s, step);
    if step.AddChunk? {
      var c := step.c;
      AddChunkNext(s, step.t, c);
      hide Inv, Enabled, Next, Sits, Seeded, Stamped;
      forall n | n in s'.owner
        ensures Sits(s'.grid, s'.exp, n)
      {
        if n !in s.owner {
          NewSits(s, step.t, c, n);
        }
      }
    } else {
      hide Inv, Sits, MaskBase;
    }
  }

  lemma NewSits(s: State, t: Thread, c: Slots, n: Addr)
    requires Inv(s) && Enabled(s, AddChunk(t, c)) && n in NodesOf(s.grid, c)
    ensures Sits(s.grid, s.exp, n)
  {
    hide PoolOk, PcOk, Routed, Sits;
    var i: nat :| i < c.count && n == s.grid.At(c.base, i);
    NodeSits(s.grid, s.exp, c.base, i);
  }

  lemma {:induction false} RunSeats(s: State, steps: seq<Step>, end: State)
    requires Inv(s) && Seated(s) && Reaches(s, steps, end)
    ensures Seated(end)
    decreases |steps|
  {
    hide Inv, Enabled, Next, Seated;
    if steps == [] {
    } else {
      StepKeeps(s, steps[0]);
      StepSeats(s, steps[0]);
      RunSeats(Next(s, steps[0]), steps[1..], end);
    }
  }

  ghost function InHands(s: State, t: Thread): set<Addr> {
    set n | n in s.owner && s.owner[n] == t && n in s.place && s.place[n].User?
  }

  ghost function InFlight(s: State, t: Thread): set<Addr> {
    set n | n in s.owner && s.owner[n] == t && n in s.place && s.place[n].Pushing?
  }

  lemma {:induction false} DistinctLength(s: seq<Addr>)
    requires forall i, j :: 0 <= i < j < |s| ==> s[i] != s[j]
    ensures |set n | n in s| == |s|
  {
    if s != [] {
      DistinctLength(s[1..]);
      var first: Addr := s[0];
      assert first !in s[1..];
      assert (set n | n in s) == (set n | n in s[1..]) + {first};
    } else {
      assert (set n | n in s) == {};
    }
  }

  /** The counters of a pool are exact at every moment: its size counts the nodes that
      users hold, that pushers carry, that wait on its stack and in its drain; its
      capacity those and the free ones. */
  lemma CountersExact(s: State, t: Thread)
    requires Inv(s) && t in s.pools
    ensures var p := s.pools[t];
            && p.size == |InHands(s, t)| + |InFlight(s, t)| + |p.stack| + |p.batch|
            && p.capacity == p.size + |p.free|
  {
    assert PoolOk(s, t);
    hide PcOk, GridGood, Routed;
    var p := s.pools[t];
    ListLength(s.mem, p.freeHead, p.free);
    ListLength(s.mem, p.remoteHead, p.stack);
    ListLength(s.mem, p.cursor, p.batch);
    hide Chain;
    Partitioned(s, t, Members(p.free), Members(p.stack), Members(p.batch));
  }

  ghost function Members(s: seq<Addr>): set<Addr> {
    set n | n in s
  }

  lemma ListLength(mem: map<Addr, int>, head: Addr, s: seq<Addr>)
    requires Chain(mem, head, s)
    ensures |Members(s)| == |s| && forall n: Addr :: n in Members(s) <==> n in s
  {
    ChainPop(mem, head, s);
    DistinctLength(s);
  }

  lemma Partitioned(s: State, t: Thread, free: set<Addr>, stack: set<Addr>, batch: set<Addr>)
    requires s.owner.Keys == s.place.Keys
    requires forall n: Addr :: n in free <==> At(s.owner, s.place, t, n, Free)
    requires forall n: Addr :: n in stack <==> At(s.owner, s.place, t, n, Parked)
    requires forall n: Addr :: n in batch <==> At(s.owner, s.place, t, n, Batch)
    ensures |Busy(s.owner, s.place, t)| == |InHands(s, t)| + |InFlight(s, t)| + |stack| + |batch|
    ensures |SlotsOf(s.owner, t)| == |Busy(s.owner, s.place, t)| + |free|
  {
    var hands, flight, busy := InHands(s, t), InFlight(s, t), Busy(s.owner, s.place, t);
    forall n: Addr
      ensures n in busy <==> n in hands || n in flight || n in stack || n in batch
      ensures !(n in hands && n in flight) && !(n in stack && n in batch)
      ensures !((n in hands || n in flight) && (n in stack || n in batch))
      ensures n in SlotsOf(s.owner, t) <==> n in busy || n in free
      ensures !(n in busy && n in free)
    {
      assert n in stack <==> At(s.owner, s.place, t, n, Parked);
      assert n in batch <==> At(s.owner, s.place, t, n, Batch);
      assert n in free <==> At(s.owner, s.place, t, n, Free);
    }
    hide InHands, InFlight, Busy, SlotsOf, At;
    assert busy == (hands + flight) + (stack + batch);
    assert hands !! flight && stack !! batch && (hands + flight) !! (stack + batch);
    assert SlotsOf(s.owner, t) == busy + free && busy !! free;
  }

  /** Safety of the pools of all threads: after any steps, every node is routed to the
      pool that owns it and is in one place: with a user, with one pusher, or in exactly
      one list of its own pool, there once; all counters are exact; and no two nodes, of
      one pool or of two, share a byte. */
  lemma NodeSafety(s: State, steps: seq<Step>, end: State)
    requires Init(s) && Reaches(s, steps, end)
    ensures forall n :: n in end.owner ==> n in end.place && Routes(end, n) && Home(end, n) == end.owner[n]
    ensures forall t, n :: t in end.pools && n in end.owner ==>
              var p := end.pools[t];
              && (n in p.free <==> end.owner[n] == t && end.place[n] == Free)
              && (n in p.stack <==> end.owner[n] == t && end.place[n] == Parked)
              && (n in p.batch <==> end.owner[n] == t && end.place[n] == Batch)
    ensures forall t :: t in end.pools ==>
              var p := end.pools[t];
              && Chain(end.mem, p.freeHead, p.free) && Chain(end.mem, p.remoteHead, p.stack) &&
                 Chain(end.mem, p.cursor, p.batch)
              && p.size == |InHands(end, t)| + |InFlight(end, t)| + |p.stack| + |p.batch|
              && p.capacity == p.size + |p.free|
    ensures forall n, k :: n in end.owner && k in end.owner && n < k ==> n + end.grid.node <= k
  {
    InitInv(s);
    RunKeeps(s, steps, end);
    RunSeats(s, steps, end);
    forall n, k | n in end.owner && k in end.owner && n < k
      ensures n + end.grid.node <= k
    {
      assert Sits(end.grid, end.exp, n) && Sits(end.grid, end.exp, k);
      NodesNeverMeet(end.grid, end.exp, n, k);
    }
    hide Chain, PcOk, GridGood, Routed, MaskBase, InHands, InFlight;
    forall n | n in end.owner
      ensures Routes(end, n) && Home(end, n) == end.owner[n]
    {
      Homeward(end, n);
    }
    forall t | t in end.pools
      ensures PoolOk(end, t)
      ensures var p := end.pools[t];
              p.size == |InHands(end, t)| + |InFlight(end, t)| + |p.stack| + |p.batch| &&
                  p.capacity == p.size + |p.free|
    {
      CountersExact(end, t);
    }
  }
}
