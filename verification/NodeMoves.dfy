/** The operations of NodePool are steps of NodePools: what the class does to its words is
    what the machine of many pools does to the memory that they share. */
module NodeMoves {
  import opened Granules
  import opened Chains
  import opened NodePools
  import PoolState
  import P = Pool

  /** The pool `p` is that of thread t in this state; the nodes still to be spliced in are
      `batch`, from `cursor` on, and those parked with it `stack`. */
  ghost predicate Tied(p: P.NodePool, s: State, t: Thread)
    reads p
  {
    && t in s.pools && t in s.pc && p.self == t && p.exp == s.exp && p.layout.nodeSize > 0 && GridOf(p.layout) == s.grid
    && p.mem == s.mem && p.slots == SlotsOf(s.owner, t)
    && var q := s.pools[t];
    && p.freeHead == q.freeHead && p.remoteHead == q.remoteHead && p.size == q.size && p.capacity == q.capacity &&
       p.free == q.free
  }

  /** ... and no drain is under way. */
  ghost predicate Settled(p: P.NodePool, s: State, t: Thread)
    reads p
  {
    Tied(p, s, t) && p.parked == s.pools[t].stack && s.pools[t].batch == [] && s.pools[t].cursor == 0
  }

  // The heads are the first elements of the lists.
  lemma Heads(p: P.NodePool)
    requires p.Valid()
    ensures p.freeHead == (if p.free == [] then 0 else p.free[0])
    ensures p.remoteHead == (if p.parked == [] then 0 else p.parked[0])
    ensures p.free != [] ==> p.freeHead != 0 && p.freeHead in p.mem
  {
    hide P.Placed, P.Partition, P.Routed, MaskBase;
    ChainPop(p.mem, p.freeHead, p.free);
  }

  // A node of the pool that some thread has or is pushing is, to the pool, held.
  lemma RoamingIsHeld(p: P.NodePool, s: State, t: Thread, n: Addr)
    requires Inv(s) && p.Valid() && Settled(p, s, t) && n in s.owner && s.owner[n] == t && n in s.place
    requires Roaming(s.place[n])
    ensures n in p.held && p.size > 0 && n > 0
  {
    hide PcOk, GridGood, NodePools.Routed, P.Placed, P.Routed, Chain;
    assert PoolOk(s, t);
    assert n in SlotsOf(s.owner, t);
    SlotAbove(p, n);
    assert n !in p.free && n !in p.parked;
    assert |p.held| > 0;
  }

  lemma SlotAbove(p: P.NodePool, n: Addr)
    requires p.Valid() && n in p.slots
    ensures n > 0
  {
    hide P.Placed, Chain, P.Partition, MaskBase;
  }

  /** Taking a free node is one step. */
  method IssueStep(p: P.NodePool, ghost s: State, t: Thread) returns (n: Addr, ghost s': State)
    requires Inv(s) && p.Valid() && Settled(p, s, t) && p.free != []
    modifies p
    ensures Enabled(s, Issue(t)) && s' == Next(s, Issue(t)) && n == s.pools[t].freeHead
    ensures p.Valid() && Settled(p, s', t)
  {
    hide Inv, P.Placed, P.Partition, P.Routed, MaskBase, SlotsOf, p.GrowthOk, PoolState.Throws, P.NodesKept;
    Heads(p);
    NextFree(p);
    var out := p.Allocate();
    Heads(p);
    n := out.n;
    s' := Next(s, Issue(t));
  }

  // The link of the first free node leads to the second.
  lemma NextFree(p: P.NodePool)
    requires p.Valid() && p.free != []
    ensures p.freeHead in p.mem && p.mem[p.freeHead] == if |p.free| > 1 then p.free[1] else 0
  {
    hide P.Placed, P.Partition, P.Routed, MaskBase;
    assert LinkOk(p.mem, p.free, 0);
  }

  /** Returning a node to the thread's own pool is one step. */
  method FreeStep(p: P.NodePool, ghost s: State, t: Thread, n: Addr) returns (ghost s': State)
    requires Inv(s) && p.Valid() && Settled(p, s, t) && Holds(s, n, t) && Home(s, n) == t && n in s.owner
    modifies p`mem, p`freeHead, p`free, p`held, p`size
    ensures Enabled(s, LocalFree(t, n)) && s' == Next(s, LocalFree(t, n))
    ensures p.Valid() && Settled(p, s', t)
  {
    hide Inv, P.Placed, P.Partition, P.Routed, MaskBase, SlotsOf, p.GrowthOk, P.NodesKept, Routes;
    Homeward(s, n);
    RoamingIsHeld(p, s, t, n);
    p.Deallocate(n);
    Heads(p);
    s' := Next(s, LocalFree(t, n));
  }

  /** Another thread's push, when nothing comes between, is three steps: the load, the link
      write and the compare-exchange. */
  method PushSteps(p: P.NodePool, ghost s: State, t: Thread, u: Thread, n: Addr) returns (ghost s1: State,
                   ghost s2: State, ghost s3: State)
    requires Inv(s) && p.Valid() && Settled(p, s, t)
    requires u != t && Holds(s, n, u) && Home(s, n) == t && n in s.owner && s.pc[u] == NodePools.Idle
    modifies p`mem, p`remoteHead, p`parked, p`held
    ensures Enabled(s, LoadHead(u, n)) && s1 == Next(s, LoadHead(u, n))
    ensures Enabled(s1, WriteLink(u)) && s2 == Next(s1, WriteLink(u))
    ensures Enabled(s2, CasSuccess(u)) && s3 == Next(s2, CasSuccess(u))
    ensures p.Valid() && Settled(p, s3, t)
  {
    hide P.Placed, P.Partition, P.Routed, SlotsOf, p.GrowthOk, P.NodesKept, MaskBase, PoolOk, PcOk, GridGood;
    Homeward(s, n);
    RoamingIsHeld(p, s, t, n);
    HeaderApart(s, n);
    hide Inv;
    p.RemotePush(n);
    Heads(p);
    s1 := Next(s, LoadHead(u, n));
    s2 := Next(s1, WriteLink(u));
    s3 := Next(s2, CasSuccess(u));
  }

  // The header that a node is routed by is not the node.
  lemma HeaderApart(s: State, n: Addr)
    requires Inv(s) && n in s.owner
    ensures n >= 0 && MaskBase(n, s.exp) != n
  {
    hide PoolOk, PcOk, GridGood, MaskBase;
  }

  /** One round of a drain is one step. */
  method SpliceStep(p: P.NodePool, ghost s: State, t: Thread, n: Addr) returns (next: Addr, ghost s': State)
    requires Inv(s) && p.Draining(n) && n != 0 && Tied(p, s, t)
    requires s.pools[t].cursor == n && s.pools[t].batch == p.parked && s.pools[t].stack == []
    modifies p`mem, p`freeHead, p`free, p`parked, p`size
    ensures Enabled(s, Splice(t)) && s' == Next(s, Splice(t))
    ensures p.Draining(next) && Tied(p, s', t) && s'.pools[t].cursor == next && s'.pools[t].batch == p.parked
  {
    hide Inv, P.Placed, P.Partition, P.Routed, MaskBase, SlotsOf, P.NodesKept;
    ghost var size := p.size;
    next := p.SpliceOne(n);
    assert size == p.size + 1;
    s' := Next(s, Splice(t));
  }
}
