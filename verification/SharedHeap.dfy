/** The system of Threads over one memory that all threads share. Each move is what a
    thread does to that memory: an operation of its own runner, a store into a run it
    holds, or a single load, link write, compare-exchange or exchange of a remote
    stack. The machine of Threads is carried along as history. Moves interleave
    freely and are sequentially consistent. */
module SharedHeap {
  import opened Words
  import opened SizeClasses
  import opened BinMask
  import opened Tiling
  import opened HeapOps
  import opened CanonicalForm
  import opened FreeLists
  import opened HeapMemory
  import opened HeapSteps
  import opened Threads
  import C = RunCache
  import RunnerState
  import R = Runner

  /** The words of a runner that are not in its chunks: bins, bitmask, the head of the
      remote stack, and how far the owner has walked what it took from there. `lists`
      are the lists that start at the bins. */
  datatype Side = Side(bins: seq<Addr>, mask: seq<Word64>, lists: seq<seq<Addr>>, head: Addr, cursor: Addr)

  /** Where a thread stands in `remote_push` on the stack of `o`; `expected` is its
      local copy of the head. */
  datatype Pc = Ready | Loaded(o: Thread, h: Addr, expected: Addr) | Linked(o: Thread, h: Addr, expected: Addr)

  datatype World = World(m: Machine, mem: Memory, sides: map<Thread, Side>, pcs: map<Thread, Pc>)

  datatype Move =
    | Create(t: Thread)
    | Local(step: Step)
    | Silent(step: Step)
    | Store(t: Thread, h: Addr, a: Addr, value: int)
    | LoadHead(t: Thread, h: Addr)
    | WriteLink(t: Thread)
    | CasSuccess(t: Thread)
    | CasFailure(t: Thread)
    | TakeAll(t: Thread)
    | ReplayNext(t: Thread)

  /** What the owner word of thread t's runs holds; never 0. */
  function Id(t: Thread): int {
    t + 1
  }

  function Mover(mv: Move): Thread {
    match mv
    case Local(step) => Actor(step)
    case Silent(step) => Actor(step)
    case _ => mv.t
  }

  function PcOf(w: World, t: Thread): Pc {
    if t in w.pcs then w.pcs[t] else Ready
  }

  /** The run is in thread t's hands: it uses it, caches it or is pushing it. */
  predicate With(m: Machine, t: Thread, h: Addr) {
    h in m.place && (m.place[h] == User(t) || m.place[h] == Cached(t) || m.place[h] == Pushing(t))
  }

  // The runner that the owner word of a run names.
  predicate OwnerWordIs(mem: Memory, h: Addr, t: Thread) {
    h + WORD_BYTES in mem && mem[h + WORD_BYTES] == Id(t)
  }

  // ---------- moves ----------

  /** What must hold before a move. A run is routed by its owner word; the exchange and
      the replay go by the cursor. */
  ghost predicate Guard(w: World, mv: Move) {
    match mv
    case Create(t) => t !in w.m.runners
    case Local(step) =>
      (match step
       case FreeDirect(t, h) => t in w.m.runners && Has(w.m, t, h) && OwnerWordIs(w.mem, h, t)
       case AddChunk(_, _) => Enabled(w.m, step)
       case Allocate(_, _, _) => Enabled(w.m, step)
       case Expand(_, _, _) => Enabled(w.m, step)
       case _ => false)
    case Silent(step) => (step.HandOver? || step.CacheIn? || step.PopOwn? || step.PopHead?) && Enabled(w.m, step)
    case Store(t, h, a, _) =>
      && h in w.m.place && (w.m.place[h] == User(t) || w.m.place[h] == Cached(t))
      && (exists o :: o in w.m.runners && OwnerWordIs(w.mem, h, o) && InPayload(w.m.runners[o].runs, h, a))
      && a in w.mem
    case LoadHead(t, h) =>
      Has(w.m, t, h) && PcOf(w, t).Ready? && exists o :: o in w.sides && o != t && OwnerWordIs(w.mem, h, o)
    case WriteLink(t) => PcOf(w, t).Loaded?
    case CasSuccess(t) =>
      var pc := PcOf(w, t);
      pc.Linked? && pc.o in w.sides && w.sides[pc.o].head == pc.expected
    case CasFailure(t) => PcOf(w, t).Linked? && PcOf(w, t).o in w.sides
    case TakeAll(t) => t in w.sides && w.sides[t].cursor == 0
    case ReplayNext(t) => t in w.sides && w.sides[t].cursor != 0 && w.sides[t].cursor in w.mem
  }

  /** The step of the system that a move is, if it is one. */
  function Image(w: World, mv: Move): Option<Step> {
    match mv
    case Create(t) => Some(CreateState(t))
    case Local(step) => Some(step)
    case Silent(step) => Some(step)
    case LoadHead(t, h) => Some(BeginPush(t, h))
    case CasSuccess(t) => if PcOf(w, t).Linked? then Some(FinishPush(t, PcOf(w, t).h)) else None
    case TakeAll(t) => Some(Exchange(t))
    case ReplayNext(t) => Some(ReplayOne(t))
    case _ => None
  }

  /** What an operation of thread t's runner promises of memory, bins and mask: they
      spell the new heap, and no payload but that of `h` and no word outside the chunks
      changes. */
  ghost predicate RunnerOp(w: World, t: Thread, h: Addr, cursor: Addr, w': World) {
    && t in w.m.runners && t in w'.m.runners && t in w.sides && t in w'.sides
    && w'.pcs == w.pcs && w'.sides == w.sides[t := w'.sides[t]]
    && w'.sides[t].head == w.sides[t].head && w'.sides[t].cursor == cursor
    && var r, s' := w'.m.runners[t], w'.sides[t];
    && MemOk(w'.mem, r.runs, r.chunks, Id(t))
    && BinsOk(w'.mem, s'.bins, s'.lists, Free(r.runs)) && R.MaskOk(s'.mask, s'.bins)
    && PayloadsKept(w.mem, w'.mem, w.m.runners[t].runs, h) && ElsewhereKept(w.mem, w'.mem, r.chunks)
  }

  ghost predicate Effect(w: World, mv: Move, w': World)
    requires Guard(w, mv)
  {
    match mv
    case Create(t) =>
      && w'.mem == w.mem && w'.pcs == w.pcs
      && w'.sides == w.sides[t := Side(R.NoBins(), R.NoBits(), seq(BIN_COUNT, _ => []), 0, 0)]
    case Local(step) => Actor(step) in w.sides && RunnerOp(w, Actor(step), Subject(step), w.sides[Actor(step)].cursor,
        w')
    case Silent(_) => w'.mem == w.mem && w'.sides == w.sides && w'.pcs == w.pcs
    case Store(_, _, a, value) => w'.mem == w.mem[a := value] && w'.sides == w.sides && w'.pcs == w.pcs
    case LoadHead(t, h) =>
      && w'.mem == w.mem && w'.sides == w.sides
      && exists o :: o in w.sides && OwnerWordIs(w.mem, h, o) && w'.pcs == w.pcs[t := Loaded(o, h, w.sides[o].head)]
    case WriteLink(t) =>
      var pc := PcOf(w, t);
      && w'.mem == w.mem[pc.h + HEADER_SIZE := pc.expected] && w'.sides == w.sides
      && w'.pcs == w.pcs[t := Linked(pc.o, pc.h, pc.expected)]
    case CasSuccess(t) =>
      var pc := PcOf(w, t);
      && w'.mem == w.mem && w'.pcs == w.pcs[t := Ready]
      && w'.sides == w.sides[pc.o := w.sides[pc.o].(head := pc.h + HEADER_SIZE)]
    case CasFailure(t) =>
      var pc := PcOf(w, t);
      w'.mem == w.mem && w'.sides == w.sides && w'.pcs == w.pcs[t := Loaded(pc.o, pc.h, w.sides[pc.o].head)]
    case TakeAll(t) =>
      && w'.mem == w.mem && w'.pcs == w.pcs
      && w'.sides == w.sides[t := w.sides[t].(head := 0, cursor := w.sides[t].head)]
    case ReplayNext(t) =>
      var p := w.sides[t].cursor;
      RunnerOp(w, t, p - HEADER_SIZE, w.mem[p], w')
  }

  /** A move, with the machine as history: it takes the step that the move is, where
      that step is possible, and none otherwise. */
  ghost predicate Moves(w: World, mv: Move, w': World) {
    && Guard(w, mv) && Effect(w, mv, w')
    && match Image(w, mv)
       case None => w'.m == w.m
       case Some(step) => Enabled(w.m, step) ==> w'.m == Next(w.m, step)
  }

  // ---------- the invariant ----------

  /** What the words of one runner spell: its heap, its index, its remote stack and the
      batch still to be replayed. */
  ghost predicate SideGood(mem: Memory, r: Runner, s: Side, id: int) {
    && MemOk(mem, r.runs, r.chunks, id)
    && BinsOk(mem, s.bins, s.lists, Free(r.runs)) && R.MaskOk(s.mask, s.bins)
    && R.Chain(mem, s.head, r.stack) && R.Chain(mem, s.cursor, r.batch)
  }

  ghost predicate SideOk(w: World, t: Thread)
    requires t in w.m.runners && t in w.sides
  {
    SideGood(w.mem, w.m.runners[t], w.sides[t], Id(t))
  }

  // Run h, of thread o's heap, is the one that thread t is pushing.
  ghost predicate Pushes(m: Machine, t: Thread, o: Thread, h: Addr) {
    && h in m.owner && m.owner[h] == o && o != t
    && (forall g :: g in m.place ==> (m.place[g] == Pushing(t) <==> g == h))
    && h in m.place
  }

  ghost predicate PcOk(w: World, t: Thread) {
    match PcOf(w, t)
    case Ready => Idle(w.m, t)
    case Loaded(o, h, _) => Pushes(w.m, t, o, h)
    case Linked(o, h, e) => Pushes(w.m, t, o, h) && h + HEADER_SIZE in w.mem && w.mem[h + HEADER_SIZE] == e
  }

  ghost predicate SidesInv(w: World) {
    && w.sides.Keys == w.m.runners.Keys
    && forall t {:trigger SideOk(w, t)} :: t in w.m.runners ==> SideOk(w, t)
  }

  ghost predicate PcsInv(w: World) {
    forall t {:trigger PcOk(w, t)} :: PcOk(w, t)
  }

  ghost predicate WorldInv(w: World) {
    Inv(w.m) && SidesInv(w) && PcsInv(w)
  }

  ghost predicate InitWorld(w: World) {
    Init(w.m) && w.sides == map[] && w.pcs == map[]
  }

  lemma InitWorldInv(w: World)
    requires InitWorld(w)
    ensures WorldInv(w)
  {
    InitInv(w.m);
    hide Inv;
    forall t
      ensures PcOk(w, t)
    {
    }
  }

  // ---------- what the invariant says of one run ----------

  lemma OwnedRun(w: World, h: Addr)
    requires WorldInv(w) && h in w.m.owner
    ensures var o := w.m.owner[h];
            && o in w.m.runners && o in w.sides && h in w.m.runners[o].runs && !w.m.runners[o].runs[h].free
            && h in w.m.place && h > 0
    ensures forall o :: OwnerWordIs(w.mem, h, o) <==> o == w.m.owner[h]
  {
    var o := w.m.owner[h];
    OnListOfOwner(w.m, o, h);
    assert h in Live(w.m.runners[o].runs);
    assert SideOk(w, o);
    OwnRunner(w.m, o);
    OwnWords(w.mem, w.m.runners[o].runs, w.m.runners[o].chunks, Id(o), h);
  }

  lemma OwnWords(mem: Memory, runs: Runs, chunks: set<Chunk>, id: int, h: Addr)
    requires MemOk(mem, runs, chunks, id) && Heap(runs, chunks) && h in runs
    ensures !runs[h].free ==> h + WORD_BYTES in mem && mem[h + WORD_BYTES] == id
    ensures h > 0 && runs[h].size >= MIN_RUN
    ensures forall a :: h <= a < h + runs[h].size ==> !Elsewhere(chunks, a)
    ensures h + HEADER_SIZE in mem
  {
    assert RunWords(mem, runs, id, h);
    hide Disjoint, Coalesced;
    RunInChunk(runs, chunks, h);
    assert RunOk(runs, chunks, h);
    AlignedWords(h);
    assert WordOf(runs[h].home, h + HEADER_SIZE);
  }

  // ---------- framing ----------

  /** Words inside the chunks are kept. */
  ghost predicate InsideKept(before: Memory, after: Memory, chunks: set<Chunk>) {
    forall a {:trigger a in after} {:trigger after[a]} :: a in before && !Elsewhere(chunks, a) ==>
      a in after && after[a] == before[a]
  }

  lemma RunInside(runs: Runs, chunks: set<Chunk>, h: Addr)
    requires Tiled(runs, chunks) && h in runs
    ensures runs[h].size >= MIN_RUN && forall a :: h <= a < h + runs[h].size ==> !Elsewhere(chunks, a)
  {
    hide Tiled;
    RunInChunk(runs, chunks, h);
  }

  lemma KeptIsWritten(before: Memory, after: Memory, runs: Runs, chunks: set<Chunk>, s: seq<Addr>)
    requires InsideKept(before, after, chunks)
    ensures R.UserWrites(before, after, runs, chunks, s)
  {
  }

  /** A runner is untouched by a move that changes nothing inside its chunks. */
  lemma SideFrame(before: Memory, after: Memory, r: Runner, s: Side, id: int)
    requires SideGood(before, r, s, id) && InsideKept(before, after, r.chunks)
    requires Heap(r.runs, r.chunks) && AllLive(r.runs, r.stack) && AllLive(r.runs, r.batch)
    ensures SideGood(after, r, s, id)
  {
    hide MemOk, BinsOk, R.Chain, AllLive, Tiled, InsideKept, R.MaskOk, Coalesced;
    KeptIsWritten(before, after, r.runs, r.chunks, r.stack);
    KeptIsWritten(before, after, r.runs, r.chunks, r.batch);
    hide R.UserWrites;
    R.WritesKeepHeap(before, after, r.runs, r.chunks, id, r.stack);
    R.WritesKeepBins(before, after, s.bins, s.lists, r.runs, r.chunks, r.stack);
    R.WritesKeepChain(before, after, s.head, r.stack, r.runs, r.chunks, r.stack);
    R.WritesKeepChain(before, after, s.cursor, r.batch, r.runs, r.chunks, r.batch);
  }

  // What is kept outside one runner's chunks is kept inside every other's.
  lemma ElsewhereIsInside(m: Machine, before: Memory, after: Memory, o: Thread, u: Thread)
    requires RunnersApart(m) && o in m.runners && u in m.runners && u != o
    requires ElsewhereKept(before, after, m.runners[o].chunks)
    ensures InsideKept(before, after, m.runners[u].chunks)
  {
    forall a | a in before && !Elsewhere(m.runners[u].chunks, a)
      ensures a in after && after[a] == before[a]
    {
      var d :| d in m.runners[u].chunks && d.begin <= a < d.begin + d.bytes;
      forall c | c in m.runners[o].chunks
        ensures !(c.begin <= a < c.begin + c.bytes)
      {
        assert Apart(c, d);
      }
      assert Elsewhere(m.runners[o].chunks, a);
    }
  }

  // ---------- moves are steps ----------

  lemma GuardedStep(w: World, step: Step)
    requires WorldInv(w) && Guard(w, Local(step))
    ensures Enabled(w.m, step)
  {
    hide SidesInv, PcsInv;
    if step.FreeDirect? {
      var h := step.h;
      hide Inv;
      PlacedOwned(w.m, h);
      OwnedRun(w, h);
      assert OwnerWordIs(w.mem, h, step.t);
    }
  }

  lemma PlacedOwned(m: Machine, h: Addr)
    requires Inv(m) && h in m.place
    ensures h in m.owner
  {
    hide CachesInv, RunnerOk, RunnersApart;
  }

  lemma LoadIsStep(w: World, t: Thread, h: Addr)
    requires WorldInv(w) && Guard(w, LoadHead(t, h))
    ensures Enabled(w.m, BeginPush(t, h))
    ensures forall o :: OwnerWordIs(w.mem, h, o) <==> o == w.m.owner[h]
  {
    hide SidesInv, Inv;
    assert PcOk(w, t);
    PlacedOwned(w.m, h);
    OwnedRun(w, h);
  }

  lemma CasIsStep(w: World, t: Thread)
    requires WorldInv(w) && Guard(w, CasSuccess(t))
    ensures Enabled(w.m, FinishPush(t, PcOf(w, t).h)) && Pushes(w.m, t, PcOf(w, t).o, PcOf(w, t).h)
  {
    hide SidesInv, Inv;
    assert PcOk(w, t);
    OwnedRun(w, PcOf(w, t).h);
  }

  lemma CursorIsBatch(w: World, t: Thread)
    requires WorldInv(w) && t in w.sides
    ensures var batch, cursor := w.m.runners[t].batch, w.sides[t].cursor;
            && (cursor == 0 <==> batch == [])
            && (batch != [] ==>
                  && cursor == batch[0] + HEADER_SIZE && cursor in w.mem && R.Chain(w.mem, w.mem[cursor], batch[1..])
                  && batch[0] in w.m.runners[t].runs)
  {
    hide Inv, PcsInv, MemOk, BinsOk, R.MaskOk, R.Chain;
    assert SideOk(w, t);
    OwnRunner(w.m, t);
    var r := w.m.runners[t];
    R.HeadOfChain(w.mem, r.runs, r.chunks, w.sides[t].cursor, r.batch);
    if r.batch != [] {
      R.NextInChain(w.mem, w.sides[t].cursor, r.batch);
      assert r.batch[0] in r.batch;
    }
  }

  lemma ImageEnabled(w: World, mv: Move)
    requires WorldInv(w) && Guard(w, mv)
    ensures Image(w, mv).Some? ==> Enabled(w.m, Image(w, mv).value)
  {
    hide WorldInv;
    match mv {
      case Local(step) => GuardedStep(w, step);
      case LoadHead(t, h) => LoadIsStep(w, t, h);
      case CasSuccess(t) => CasIsStep(w, t);
      case TakeAll(t) => CursorIsBatch(w, t); SameThreads(w, t);
      case ReplayNext(t) => CursorIsBatch(w, t); SameThreads(w, t);
      case _ =>
    }
  }

  lemma SameThreads(w: World, t: Thread)
    requires WorldInv(w)
    ensures t in w.sides <==> t in w.m.runners
  {
  }

  /** The loads, writes and compare-exchanges of any number of threads come down to the
      steps of Threads: every move is one possible step of the system, or, as far as
      the system is concerned, none at all. */
  lemma MovesAreSteps(w: World, mv: Move, w': World)
    requires WorldInv(w) && Moves(w, mv, w')
    ensures w'.m == w.m || exists step :: Actor(step) == Mover(mv) && Enabled(w.m, step) && w'.m == Next(w.m, step)
    ensures Inv(w'.m)
  {
    ImageEnabled(w, mv);
    hide Guard, Effect, Enabled, Next, SidesInv, PcsInv, Inv;
    if Image(w, mv).Some? {
      var step := Image(w, mv).value;
      StepKeeps(w.m, step);
      assert Actor(step) == Mover(mv);
    }
  }

  // ---------- who is pushing what ----------

  ghost predicate PushingSame(m: Machine, n: Machine, v: Thread) {
    forall g: Addr {:trigger g in n.place} {:trigger g in m.place} ::
      && ((g in n.place && n.place[g] == Pushing(v)) <==> (g in m.place && m.place[g] == Pushing(v)))
      && (g in m.place && m.place[g] == Pushing(v) && g in m.owner ==> g in n.owner && n.owner[g] == m.owner[g])
  }

  lemma PushingStays(m: Machine, step: Step, v: Thread)
    requires Inv(m) && Enabled(m, step)
    requires !((step.BeginPush? || step.FinishPush?) && step.t == v)
    ensures PushingSame(m, Next(m, step), v)
  {
    if step.Allocate? {
      FreeUnowned(m, step.t, step.h);
    } else if step.PopOwn? {
      Popped(m, step.t, step.idx, step.k);
    } else if step.PopHead? {
      Popped(m, step.t, step.idx, 0);
    } else if step.ReplayOne? {
      ReplayedNext(m, step.t);
    } else if step.Exchange? {
      StackParked(m, step.t);
    }
    hide CachesInv, RunnerOk, RunnersApart, Carve, Stretch, Release, WithChunk, LegalRunSize, NextFree, ChunkOk;
    hide FirstOwn, HasRoom;
  }

  lemma Popped(m: Machine, t: Thread, idx: nat, k: nat)
    requires Inv(m) && idx < |CacheOf(m, t)| && k < |CacheOf(m, t)[idx]|
    ensures var h := CacheOf(m, t)[idx][k]; h in m.place && m.place[h] == Cached(t)
  {
    hide OncePerCache, Bounded, HeapsInv;
    var h: Addr := CacheOf(m, t)[idx][k];
    assert h in CacheOf(m, t)[idx];
    assert InCache(CacheOf(m, t), h) && CacheOk(m, t);
  }

  lemma StackParked(m: Machine, t: Thread)
    requires Inv(m) && t in m.runners
    ensures forall h: Addr :: h in m.runners[t].stack ==> h in m.place && m.place[h] == Parked
  {
    hide Heap, Live, Distinct, RunnersApart, CachesInv;
    assert RunnerOk(m, t);
  }

  lemma PcStays(w: World, w': World, v: Thread)
    requires Inv(w.m) && PcOk(w, v) && PcOf(w', v) == PcOf(w, v) && PushingSame(w.m, w'.m, v)
    requires PcOf(w, v).Linked? ==>
               var p := PcOf(w, v).h + HEADER_SIZE; p in w.mem ==> p in w'.mem && w'.mem[p] == w.mem[p]
    ensures PcOk(w', v)
  {
    hide Inv;
  }

  // ---------- what a move writes ----------

  /** The move writes no allocated payload but that of run `g`, of thread o's heap, and
      no word outside that thread's chunks. */
  ghost predicate WritesIn(w: World, w': World, o: Thread, g: Addr) {
    w'.mem == w.mem
    || (&& o in w.m.runners && o in w'.m.runners
        && PayloadsKept(w.mem, w'.mem, w.m.runners[o].runs, g) && ElsewhereKept(w.mem, w'.mem, w'.m.runners[o].chunks))
  }

  lemma ChunksStay(m: Machine, step: Step, v: Thread)
    requires Enabled(m, step) && v in m.runners
    ensures v in Next(m, step).runners && m.runners[v].chunks <= Next(m, step).runners[v].chunks
    ensures v != Actor(step) && !step.FinishPush? ==> Next(m, step).runners[v] == m.runners[v]
  {
    hide Carve, Stretch, Release, WithChunk, LegalRunSize, NextFree, ChunkOk, FirstOwn, HasRoom, RunnersApart;
  }

  ghost predicate ChunksGrow(m: Machine, n: Machine) {
    forall v :: v in m.runners ==> v in n.runners && m.runners[v].chunks <= n.runners[v].chunks
  }

  lemma MoveGrows(w: World, mv: Move, w': World)
    requires WorldInv(w) && Moves(w, mv, w')
    ensures ChunksGrow(w.m, w'.m)
  {
    ImageEnabled(w, mv);
    hide Guard, Effect, Enabled, Next, WorldInv;
    if Image(w, mv).Some? {
      forall v | v in w.m.runners
        ensures v in w'.m.runners && w.m.runners[v].chunks <= w'.m.runners[v].chunks
      {
        ChunksStay(w.m, Image(w, mv).value, v);
      }
    }
  }

  lemma WiderInside(before: Memory, after: Memory, c: set<Chunk>, d: set<Chunk>)
    requires InsideKept(before, after, d) && c <= d
    ensures InsideKept(before, after, c)
  {
    forall a | a in before && !Elsewhere(c, a)
      ensures a in after && after[a] == before[a]
    {
      var x :| x in c && x.begin <= a < x.begin + x.bytes;
      assert x in d && !Elsewhere(d, a);
    }
  }

  // No other runner's words change.
  lemma OthersInside(w: World, w': World, o: Thread, g: Addr, u: Thread)
    requires Inv(w'.m) && ChunksGrow(w.m, w'.m) && WritesIn(w, w', o, g) && u in w.m.runners && u != o
    ensures InsideKept(w.mem, w'.mem, w.m.runners[u].chunks)
  {
    hide CachesInv, RunnerOk, RunnersApart, PayloadsKept, ElsewhereKept, Elsewhere;
    if w'.mem != w.mem {
      ElsewhereIsInside(w'.m, w.mem, w'.mem, o, u);
      WiderInside(w.mem, w'.mem, w.m.runners[u].chunks, w'.m.runners[u].chunks);
    }
  }

  /** The payload of every other allocated run, of whatever thread, is kept. */
  lemma PayloadStays(w: World, w': World, o: Thread, g: Addr, h: Addr, a: Addr)
    requires WorldInv(w) && Inv(w'.m) && ChunksGrow(w.m, w'.m) && WritesIn(w, w', o, g)
    requires h in w.m.owner && h != g && a in w.mem
    requires w.m.owner[h] in w.m.runners && InPayload(w.m.runners[w.m.owner[h]].runs, h, a)
    ensures a in w'.mem && w'.mem[a] == w.mem[a]
  {
    var v := w.m.owner[h];
    hide Inv, SidesInv, PcsInv, ElsewhereKept, Elsewhere, InPayload, ChunksGrow, Heap, AllLive, Distinct;
    if v != o {
      OthersInside(w, w', o, g, v);
      OwnRunner(w.m, v);
      InPayloadInside(w.m.runners[v].runs, w.m.runners[v].chunks, h, a);
    }
  }

  lemma InPayloadInside(runs: Runs, chunks: set<Chunk>, h: Addr, a: Addr)
    requires Heap(runs, chunks) && InPayload(runs, h, a)
    ensures !Elsewhere(chunks, a)
  {
    RunInside(runs, chunks, h);
  }

  /** A link that a thread has written, and not yet pushed, stays as it wrote it. */
  lemma LinkStays(w: World, w': World, o: Thread, g: Addr, v: Thread)
    requires WorldInv(w) && Inv(w'.m) && ChunksGrow(w.m, w'.m) && WritesIn(w, w', o, g)
    requires PcOf(w, v).Linked? ==> PcOf(w, v).h != g
    ensures PcOf(w, v).Linked? ==>
              var p := PcOf(w, v).h + HEADER_SIZE; p in w.mem ==> p in w'.mem && w'.mem[p] == w.mem[p]
  {
    hide Inv, SidesInv, ChunksGrow, WritesIn, Heap, AllLive, Distinct;
    if PcOf(w, v).Linked? {
      var h := PcOf(w, v).h;
      assert PcOk(w, v);
      OwnedRun(w, h);
      var r := w.m.runners[w.m.owner[h]];
      OwnRunner(w.m, w.m.owner[h]);
      RunSize(r.runs, r.chunks, h);
      if h + HEADER_SIZE in w.mem {
        PayloadStays(w, w', o, g, h, h + HEADER_SIZE);
      }
    }
  }

  lemma RunSize(runs: Runs, chunks: set<Chunk>, h: Addr)
    requires Heap(runs, chunks) && h in runs
    ensures runs[h].size >= MIN_RUN
  {
    RunInside(runs, chunks, h);
  }

  // ---------- every move keeps what the words spell ----------

  lemma OtherSide(w: World, w': World, o: Thread, g: Addr, u: Thread)
    requires WorldInv(w) && Inv(w'.m) && ChunksGrow(w.m, w'.m) && WritesIn(w, w', o, g)
    requires u in w.m.runners && u in w'.m.runners && w'.m.runners[u] == w.m.runners[u]
    requires u in w'.sides && w'.sides[u] == w.sides[u]
    requires u != o || w'.mem == w.mem
    ensures SideOk(w', u)
  {
    hide Inv, PcsInv, ChunksGrow, WritesIn, SideGood, Heap, AllLive, Distinct, InsideKept;
    assert SideOk(w, u);
    if u != o {
      OthersInside(w, w', o, g, u);
      OwnRunner(w.m, u);
      SideFrame(w.mem, w'.mem, w.m.runners[u], w.sides[u], Id(u));
    }
  }

  // A list of parked runs stays linked through an operation on another run.
  lemma OwnSide(w: World, w': World, t: Thread, h: Addr, cursor: Addr)
    requires WorldInv(w) && RunnerOp(w, t, h, cursor, w')
    requires var r, r' := w.m.runners[t], w'.m.runners[t];
             && r'.stack == r.stack && h !in r.stack && h !in r'.batch
             && R.Chain(w.mem, cursor, r'.batch) && AllLive(r.runs, r'.batch)
    ensures SideOk(w', t)
  {
    hide Inv, PcsInv, MemOk, BinsOk, R.MaskOk, R.Chain, PayloadsKept, ElsewhereKept, AllLive, Distinct;
    var r, r' := w.m.runners[t], w'.m.runners[t];
    assert SideOk(w, t);
    OwnRunner(w.m, t);
    LegalSizes(r.runs, r.chunks);
    R.ChainKept(w.mem, w'.mem, r.runs, w.sides[t].head, r.stack, h);
    R.ChainKept(w.mem, w'.mem, r.runs, cursor, r'.batch, h);
  }

  lemma LegalSizes(runs: Runs, chunks: set<Chunk>)
    requires Heap(runs, chunks)
    ensures forall x :: x in runs ==> runs[x].size >= MIN_RUN
  {
    hide RunOk, Coalesced;
    SizesLegal(runs, chunks);
  }

  // On neither list: a run that is free, or that some user or cache has.
  lemma NotListed(m: Machine, t: Thread, h: Addr)
    requires Inv(m) && t in m.runners
    requires h in m.place ==> m.place[h] != Parked && m.place[h] != Replaying
    ensures h !in m.runners[t].stack && h !in m.runners[t].batch
  {
    hide Heap, Live, Distinct, RunnersApart, CachesInv;
    assert RunnerOk(m, t);
  }

  lemma LocalShape(m: Machine, step: Step)
    requires Inv(m) && Enabled(m, step) && OwnOperation(step)
    ensures var t, n, h := Actor(step), Next(m, step), Subject(step);
            && t in m.runners && n.runners.Keys == m.runners.Keys
            && n.runners == m.runners[t := n.runners[t]]
            && n.runners[t].stack == m.runners[t].stack && n.runners[t].batch == m.runners[t].batch
            && (h in m.place ==> m.place[h] == User(t))
  {
    if step.Allocate? {
      FreeUnowned(m, step.t, step.h);
    } else if step.AddChunk? {
      ZeroUnowned(m);
    }
    hide CachesInv, RunnerOk, RunnersApart, Carve, Stretch, Release, WithChunk, LegalRunSize, NextFree, ChunkOk;
  }

  lemma ZeroUnowned(m: Machine)
    requires Inv(m)
    ensures 0 !in m.place
  {
    hide Heap, RunnersApart, CachesInv;
    if 0 in m.place {
      var t := m.owner[0];
      assert RunnerOk(m, t);
      assert 0 in Live(m.runners[t].runs);
      ZeroNoRun(m.runners[t].runs, m.runners[t].chunks);
    }
  }

  lemma ZeroNoRun(runs: Runs, chunks: set<Chunk>)
    requires Heap(runs, chunks)
    ensures 0 !in runs
  {
    if 0 in runs {
      RunInChunk(runs, chunks, 0);
    }
  }

  lemma OperationFrame(w: World, t: Thread, h: Addr, cursor: Addr, w': World)
    requires RunnerOp(w, t, h, cursor, w')
    ensures WritesIn(w, w', t, h) && t in w.sides && t in w'.sides && w'.sides == w.sides[t := w'.sides[t]]
    ensures w'.pcs == w.pcs
  {
    hide MemOk, BinsOk, R.MaskOk, PayloadsKept, ElsewhereKept;
  }

  lemma OperationKeeps(w: World, t: Thread, h: Addr, cursor: Addr, w': World)
    requires WorldInv(w) && Inv(w'.m) && ChunksGrow(w.m, w'.m) && RunnerOp(w, t, h, cursor, w')
    requires w'.m.runners.Keys == w.m.runners.Keys && w'.m.runners == w.m.runners[t := w'.m.runners[t]]
    requires var r, r' := w.m.runners[t], w'.m.runners[t];
             && r'.stack == r.stack && h !in r.stack && h !in r'.batch
             && R.Chain(w.mem, cursor, r'.batch) && AllLive(r.runs, r'.batch)
    ensures SidesInv(w')
  {
    hide Inv, PcsInv, ChunksGrow, WritesIn, SideGood, RunnerOp, R.Chain, AllLive, SideOk;
    OwnSide(w, w', t, h, cursor);
    OperationFrame(w, t, h, cursor, w');
    forall u | u in w'.m.runners
      ensures SideOk(w', u)
    {
      if u != t {
        OtherSide(w, w', t, h, u);
      }
    }
  }

  lemma PcsStay(w: World, w': World, o: Thread, g: Addr)
    requires WorldInv(w) && Inv(w'.m) && ChunksGrow(w.m, w'.m) && WritesIn(w, w', o, g)
    requires w'.pcs == w.pcs && (forall v :: PushingSame(w.m, w'.m, v))
    requires g in w.m.place ==> !w.m.place[g].Pushing?
    ensures PcsInv(w')
  {
    hide Inv, SidesInv, ChunksGrow, WritesIn, PushingSame;
    forall v
      ensures PcOk(w', v)
    {
      assert PcOk(w, v);
      LinkStays(w, w', o, g, v);
      PcStays(w, w', v);
    }
  }

  lemma LocalKeeps(w: World, step: Step, w': World)
    requires WorldInv(w) && Moves(w, Local(step), w')
    ensures WorldInv(w')
  {
    MovesAreSteps(w, Local(step), w');
    MoveGrows(w, Local(step), w');
    GuardedStep(w, step);
    assert OwnOperation(step);
    LocalShape(w.m, step);
    var t, h := Actor(step), Subject(step);
    assert RunnerOp(w, t, h, w.sides[t].cursor, w');
    assert w'.m == Next(w.m, step);
    NotListed(w.m, t, h);
    OwnRunner(w.m, t);
    forall v
      ensures PushingSame(w.m, w'.m, v)
    {
      PushingStays(w.m, step, v);
    }
    hide Inv, ChunksGrow, Enabled, Next, Guard, Effect, MemOk, BinsOk, R.MaskOk, R.Chain, AllLive, PayloadsKept;
    hide ElsewhereKept, PushingSame;
    assert SideOk(w, t);
    OperationKeeps(w, t, h, w.sides[t].cursor, w');
    OperationFrame(w, t, h, w.sides[t].cursor, w');
    PcsStay(w, w', t, h);
  }

  // The shape of the replay step.
  lemma ReplayShape(m: Machine, t: Thread)
    requires Inv(m) && Enabled(m, ReplayOne(t))
    ensures var r, n := m.runners[t], Next(m, ReplayOne(t));
            && n.runners.Keys == m.runners.Keys && n.runners == m.runners[t := n.runners[t]]
            && n.runners[t].stack == r.stack && n.runners[t].batch == r.batch[1..]
            && r.batch[0] !in r.stack && r.batch[0] !in r.batch[1..]
            && r.batch[0] in m.place && m.place[r.batch[0]] == Replaying
            && AllLive(r.runs, r.batch[1..])
  {
    ReplayedNext(m, t);
    OwnRunner(m, t);
    hide Heap, Live, Release, RunnersApart, CachesInv, Next, Enabled;
    var r := m.runners[t];
    assert RunnerOk(m, t);
    RestOf(r.batch);
    assert forall h: Addr :: h in r.batch[1..] ==> h in r.batch;
  }

  lemma ReplayWorld(w: World, t: Thread, w': World)
    requires WorldInv(w) && Moves(w, ReplayNext(t), w')
    ensures Enabled(w.m, ReplayOne(t)) && w'.m == Next(w.m, ReplayOne(t))
    ensures t in w.m.runners && w.m.runners[t].batch != [] && t in w.sides && w.sides[t].cursor in w.mem
    ensures RunnerOp(w, t, w.sides[t].cursor - HEADER_SIZE, w.mem[w.sides[t].cursor], w')
  {
    hide WorldInv, Next, RunnerOp;
    ImageEnabled(w, ReplayNext(t));
  }

  lemma ReplayNextKeeps(w: World, t: Thread, w': World)
    requires WorldInv(w) && Moves(w, ReplayNext(t), w')
    ensures WorldInv(w')
  {
    hide Inv, SidesInv, PcsInv, Moves, ChunksGrow, Enabled, Next, RunnerOp, R.Chain, AllLive, PushingSame, WritesIn;
    MovesAreSteps(w, ReplayNext(t), w');
    MoveGrows(w, ReplayNext(t), w');
    ReplayWorld(w, t, w');
    CursorIsBatch(w, t);
    ReplayShape(w.m, t);
    var h, next := w.sides[t].cursor - HEADER_SIZE, w.mem[w.sides[t].cursor];
    forall v
      ensures PushingSame(w.m, w'.m, v)
    {
      PushingStays(w.m, ReplayOne(t), v);
    }
    OperationKeeps(w, t, h, next, w');
    OperationFrame(w, t, h, next, w');
    PcsStay(w, w', t, h);
  }

  // ---------- stores and link writes ----------

  // A word written into a run that is on no list.
  lemma WriteKeepsSides(w: World, g: Addr, a: Addr, value: int, w': World)
    requires WorldInv(w) && w'.m == w.m && w'.sides == w.sides && w'.mem == w.mem[a := value] && a in w.mem
    requires g in w.m.owner && g in w.m.place && w.m.place[g] != Parked && w.m.place[g] != Replaying
    requires w.m.owner[g] in w.m.runners && InPayload(w.m.runners[w.m.owner[g]].runs, g, a)
    ensures SidesInv(w') && WritesIn(w, w', w.m.owner[g], g)
  {
    hide Inv, PcsInv, MemOk, BinsOk, R.MaskOk, R.Chain, AllLive, PayloadsKept, ElsewhereKept, InPayload, Elsewhere;
    hide Coalesced, Disjoint, Tiled;
    var o := w.m.owner[g];
    var r, s := w.m.runners[o], w.sides[o];
    assert SideOk(w, o);
    OwnRunner(w.m, o);
    NotListed(w.m, o, g);
    LegalSizes(r.runs, r.chunks);
    R.PayloadWrite(w.mem, r.runs, r.chunks, Id(o), g, a, value);
    R.PayloadWriteBins(w.mem, s.bins, s.lists, r.runs, r.chunks, g, a, value);
    R.ChainKept(w.mem, w'.mem, r.runs, s.head, r.stack, g);
    R.ChainKept(w.mem, w'.mem, r.runs, s.cursor, r.batch, g);
    InPayloadInside(r.runs, r.chunks, g, a);
    OneWordElsewhere(w.mem, a, value, r.chunks);
    assert SideOk(w', o) && WritesIn(w, w', o, g) && ChunksGrow(w.m, w'.m);
    hide WritesIn, SideGood, SideOk, ChunksGrow;
    forall u | u in w'.m.runners
      ensures SideOk(w', u)
    {
      if u != o {
        OtherSide(w, w', o, g, u);
      }
    }
  }

  lemma OneWordElsewhere(mem: Memory, a: Addr, value: int, chunks: set<Chunk>)
    requires !Elsewhere(chunks, a)
    ensures ElsewhereKept(mem, mem[a := value], chunks)
  {
  }

  lemma NobodyMoves(m: Machine)
    ensures ChunksGrow(m, m) && forall v :: PushingSame(m, m, v)
  {
  }

  lemma StoreKeeps(w: World, t: Thread, h: Addr, a: Addr, value: int, w': World)
    requires WorldInv(w) && Moves(w, Store(t, h, a, value), w')
    ensures WorldInv(w') && w'.m == w.m
    ensures h in w.m.owner && WritesIn(w, w', w.m.owner[h], h)
  {
    hide Inv, SidesInv, PcsInv, InPayload;
    PlacedOwned(w.m, h);
    OwnedRun(w, h);
    WriteKeepsSides(w, h, a, value, w');
    NobodyMoves(w.m);
    PcsStay(w, w', w.m.owner[h], h);
  }

  lemma WriteLinkKeeps(w: World, t: Thread, w': World)
    requires WorldInv(w) && Moves(w, WriteLink(t), w')
    ensures WorldInv(w') && w'.m == w.m
    ensures With(w.m, t, PcOf(w, t).h) && PcOf(w, t).h in w.m.owner
    ensures WritesIn(w, w', w.m.owner[PcOf(w, t).h], PcOf(w, t).h)
  {
    hide Inv, SidesInv, PcsInv, SideOk, InPayload;
    var h, o := PcOf(w, t).h, PcOf(w, t).o;
    PcKnown(w, t);
    OwnedRun(w, h);
    OwnRunner(w.m, o);
    OwnSideKnown(w, o);
    OwnWords(w.mem, w.m.runners[o].runs, w.m.runners[o].chunks, Id(o), h);
    assert InPayload(w.m.runners[o].runs, h, h + HEADER_SIZE) by { LinkInPayload(w.m.runners[o].runs, h); }
    WriteKeepsSides(w, h, h + HEADER_SIZE, PcOf(w, t).expected, w');
    NobodyMoves(w.m);
    hide WritesIn, ChunksGrow, PushingSame, Heap, AllLive, Distinct, MemOk;
    forall v
      ensures PcOk(w', v)
    {
      PcKnown(w, v);
      if v != t {
        LinkStays(w, w', o, h, v);
        PcStays(w, w', v);
      }
    }
    assert PcsInv(w') by { AllPcs(w'); }
  }

  lemma AllPcs(w: World)
    requires forall v :: PcOk(w, v)
    ensures PcsInv(w)
  {
  }

  lemma LinkInPayload(runs: Runs, h: Addr)
    requires h in runs && !runs[h].free && runs[h].size >= MIN_RUN
    ensures InPayload(runs, h, h + HEADER_SIZE)
  {
  }

  lemma PcKnown(w: World, t: Thread)
    requires WorldInv(w)
    ensures PcOk(w, t)
  {
  }

  lemma OwnSideKnown(w: World, t: Thread)
    requires WorldInv(w) && t in w.m.runners
    ensures t in w.sides && MemOk(w.mem, w.m.runners[t].runs, w.m.runners[t].chunks, Id(t))
  {
    assert SideOk(w, t);
  }

  // ---------- moves that write no word of the heap ----------

  // Places, owners or lists may change, memory does not.
  lemma QuietKeeps(w: World, w': World)
    requires WorldInv(w) && Inv(w'.m) && w'.mem == w.mem && w'.sides == w.sides && w'.m.runners == w.m.runners
    ensures SidesInv(w') && ChunksGrow(w.m, w'.m) && forall o, g :: WritesIn(w, w', o, g)
  {
    hide Inv, PcsInv, SideGood;
    forall u | u in w'.m.runners
      ensures SideOk(w', u)
    {
      assert SideOk(w, u);
    }
  }

  lemma SilentKeeps(w: World, step: Step, w': World)
    requires WorldInv(w) && Moves(w, Silent(step), w')
    ensures WorldInv(w')
  {
    MovesAreSteps(w, Silent(step), w');
    forall v
      ensures PushingSame(w.m, w'.m, v)
    {
      PushingStays(w.m, step, v);
    }
    ZeroUnowned(w.m);
    hide Inv, SidesInv, PcsInv, PushingSame, HasRoom, FirstOwn;
    QuietKeeps(w, w');
    PcsStay(w, w', 0, 0);
  }

  lemma LoadHeadWorld(w: World, t: Thread, h: Addr, w': World)
    requires WorldInv(w) && Moves(w, LoadHead(t, h), w')
    ensures h in w.m.owner && h in w.m.place && Enabled(w.m, BeginPush(t, h)) && w'.m == Next(w.m, BeginPush(t, h))
    ensures w'.m == w.m.(place := w.m.place[h := Pushing(t)]) && Pushes(w'.m, t, w.m.owner[h], h)
    ensures w'.mem == w.mem && w'.sides == w.sides
    ensures exists e :: w'.pcs == w.pcs[t := Loaded(w.m.owner[h], h, e)]
  {
    LoadIsStep(w, t, h);
    PlacedOwned(w.m, h);
    hide Inv, SidesInv, PcsInv;
  }

  lemma LoadHeadKeeps(w: World, t: Thread, h: Addr, w': World)
    requires WorldInv(w) && Moves(w, LoadHead(t, h), w')
    ensures WorldInv(w')
  {
    hide Inv, SidesInv, PcsInv, PushingSame, Moves, Enabled, Next, ChunksGrow, WritesIn;
    LoadHeadWorld(w, t, h, w');
    MovesAreSteps(w, LoadHead(t, h), w');
    QuietKeeps(w, w');
    ZeroUnowned(w.m);
    forall v
      ensures PcOk(w', v)
    {
      PcKnown(w, v);
      if v != t {
        PushingStays(w.m, BeginPush(t, h), v);
        LinkStays(w, w', 0, 0, v);
        PcStays(w, w', v);
      }
    }
    AllPcs(w');
  }

  lemma CasFailureKeeps(w: World, t: Thread, w': World)
    requires WorldInv(w) && Moves(w, CasFailure(t), w')
    ensures WorldInv(w')
  {
    hide Inv, SidesInv, PcsInv, PushingSame;
    QuietKeeps(w, w');
    NobodyMoves(w.m);
    forall v
      ensures PcOk(w', v)
    {
      PcKnown(w, v);
      if v != t {
        PcStays(w, w', v);
      }
    }
    AllPcs(w');
  }

  lemma CasWorld(w: World, t: Thread, w': World)
    requires WorldInv(w) && Moves(w, CasSuccess(t), w')
    ensures var o, h := PcOf(w, t).o, PcOf(w, t).h;
            && PcOf(w, t).Linked? && Pushes(w.m, t, o, h) && o in w.m.runners && o in w.sides
            && Enabled(w.m, FinishPush(t, h)) && w'.m == Next(w.m, FinishPush(t, h))
            && w'.m == w.m.(runners := w.m.runners[o := w.m.runners[o].(stack := [h] + w.m.runners[o].stack)],
                   place := w.m.place[h := Parked])
            && h + HEADER_SIZE in w.mem && w.mem[h + HEADER_SIZE] == w.sides[o].head
            && w'.sides == w.sides[o := w.sides[o].(head := h + HEADER_SIZE)]
    ensures w'.mem == w.mem && w'.pcs == w.pcs[t := Ready]
  {
    CasIsStep(w, t);
    PcKnown(w, t);
    hide WorldInv;
  }

  // The runner whose stack grows.
  lemma PushedSide(w: World, o: Thread, h: Addr)
    requires WorldInv(w) && o in w.m.runners && o in w.sides && h in w.m.owner && w.m.owner[h] == o
    requires h in w.m.place && w.m.place[h].Pushing? && h + HEADER_SIZE in w.mem
    requires w.mem[h + HEADER_SIZE] == w.sides[o].head
    ensures var r := w.m.runners[o];
            SideGood(w.mem, r.(stack := [h] + r.stack), w.sides[o].(head := h + HEADER_SIZE), Id(o))
  {
    hide Inv, PcsInv, MemOk, BinsOk, R.MaskOk, R.Chain, AllLive, Distinct, Coalesced, Disjoint, Tiled;
    OwnedRun(w, h);
    NotListed(w.m, o, h);
    OwnRunner(w.m, o);
    var r := w.m.runners[o];
    assert SideOk(w, o);
    R.PushChain(w.mem, r.runs, r.chunks, Id(o), w.sides[o].head, r.stack, h);
    assert w.mem[h + HEADER_SIZE := w.sides[o].head] == w.mem;
  }

  // Only one runner and its words outside the chunks change.
  lemma OneSideChanged(w: World, w': World, o: Thread)
    requires WorldInv(w) && w'.mem == w.mem && o in w'.m.runners && o in w'.sides
    requires w'.m.runners == w.m.runners[o := w'.m.runners[o]] && w'.sides == w.sides[o := w'.sides[o]]
    requires SideOk(w', o)
    ensures SidesInv(w')
  {
    hide Inv, PcsInv, SideGood;
    forall u | u in w'.m.runners
      ensures SideOk(w', u)
    {
      if u != o {
        assert SideOk(w, u);
      }
    }
  }

  /** The compare-exchange that succeeds pushes onto the list that is there, whatever
      happened since the head was loaded. */
  lemma CasSuccessKeeps(w: World, t: Thread, w': World)
    requires WorldInv(w) && Moves(w, CasSuccess(t), w')
    ensures WorldInv(w')
  {
    hide Inv, SidesInv, PcsInv, PushingSame, SideGood, Moves, Enabled, Next;
    MovesAreSteps(w, CasSuccess(t), w');
    CasWorld(w, t, w');
    var o, h := PcOf(w, t).o, PcOf(w, t).h;
    PushedSide(w, o, h);
    assert SideOk(w', o);
    OneSideChanged(w, w', o);
    forall v
      ensures PcOk(w', v)
    {
      PcKnown(w, v);
      if v != t {
        PushingStays(w.m, FinishPush(t, h), v);
        PcStays(w, w', v);
      }
    }
    AllPcs(w');
  }

  lemma TakeAllWorld(w: World, t: Thread, w': World)
    requires WorldInv(w) && Moves(w, TakeAll(t), w')
    ensures Enabled(w.m, Exchange(t)) && w'.m == Next(w.m, Exchange(t))
    ensures t in w.m.runners && t in w.sides && w'.mem == w.mem && w'.pcs == w.pcs
    ensures w'.m.runners == w.m.runners[t := w.m.runners[t].(stack := [], batch := w.m.runners[t].stack)]
    ensures w'.sides == w.sides[t := w.sides[t].(head := 0, cursor := w.sides[t].head)]
    ensures SideGood(w.mem, w'.m.runners[t], w'.sides[t], Id(t))
  {
    ImageEnabled(w, TakeAll(t));
    hide Inv, PcsInv, MemOk, BinsOk, R.MaskOk, R.Chain;
    assert SideOk(w, t);
    R.EmptyChain(w.mem);
  }

  lemma TakeAllKeeps(w: World, t: Thread, w': World)
    requires WorldInv(w) && Moves(w, TakeAll(t), w')
    ensures WorldInv(w')
  {
    hide Inv, SidesInv, PcsInv, PushingSame, SideGood, Moves, Enabled, Next;
    MovesAreSteps(w, TakeAll(t), w');
    TakeAllWorld(w, t, w');
    assert SideOk(w', t);
    OneSideChanged(w, w', t);
    forall v
      ensures PcOk(w', v)
    {
      PcKnown(w, v);
      PushingStays(w.m, Exchange(t), v);
      PcStays(w, w', v);
    }
    AllPcs(w');
  }

  lemma CreateWorld(w: World, t: Thread, w': World)
    requires WorldInv(w) && Moves(w, Create(t), w')
    ensures Enabled(w.m, CreateState(t)) && w'.m == Next(w.m, CreateState(t)) && t in w'.sides && t in w'.m.runners
    ensures w'.mem == w.mem && w'.pcs == w.pcs
    ensures w'.m.runners == w.m.runners[t := w'.m.runners[t]] && w'.sides == w.sides[t := w'.sides[t]]
    ensures SideOk(w', t)
  {
    ImageEnabled(w, Create(t));
    BlankSide(w.mem, Id(t));
    hide WorldInv, SideGood;
  }

  lemma CreateKeepsWorld(w: World, t: Thread, w': World)
    requires WorldInv(w) && Moves(w, Create(t), w')
    ensures WorldInv(w')
  {
    hide Inv, SidesInv, PcsInv, PushingSame, SideGood, Moves, Enabled, Next, SideOk;
    MovesAreSteps(w, Create(t), w');
    CreateWorld(w, t, w');
    OneSideChanged(w, w', t);
    forall v
      ensures PcOk(w', v)
    {
      PcKnown(w, v);
      PushingStays(w.m, CreateState(t), v);
      PcStays(w, w', v);
    }
    AllPcs(w');
  }

  lemma BlankSide(mem: Memory, id: int)
    ensures SideGood(mem, Runner(map[], {}, [], []), Side(R.NoBins(), R.NoBits(), seq(BIN_COUNT, _ => []), 0, 0), id)
  {
    hide BinIndex, Bit;
    R.EmptyChain(mem);
    assert Free(map[]) == map[];
    forall i | 0 <= i < BIN_COUNT
      ensures !MaskBit(R.NoBits(), i)
    {
      ZeroHasNoBits(i % WORD_BITS);
    }
  }

  /** Every move of every thread keeps the system in order, down to the words: each
      runner's headers, footers, owner words, bins, bitmask, remote stack and batch
      spell what the history says. */
  lemma MoveKeeps(w: World, mv: Move, w': World)
    requires WorldInv(w) && Moves(w, mv, w')
    ensures WorldInv(w')
  {
    match mv {
      case Create(t) => CreateKeepsWorld(w, t, w');
      case Local(step) => LocalKeeps(w, step, w');
      case Silent(step) => SilentKeeps(w, step, w');
      case Store(t, h, a, value) => StoreKeeps(w, t, h, a, value, w');
      case LoadHead(t, h) => LoadHeadKeeps(w, t, h, w');
      case WriteLink(t) => WriteLinkKeeps(w, t, w');
      case CasSuccess(t) => CasSuccessKeeps(w, t, w');
      case CasFailure(t) => CasFailureKeeps(w, t, w');
      case TakeAll(t) => TakeAllKeeps(w, t, w');
      case ReplayNext(t) => ReplayNextKeeps(w, t, w');
    }
  }

  // ---------- whose words a move changes ----------

  /** One word changes, in the payload of a run that the thread holds. */
  ghost predicate OneWord(w: World, w': World, t: Thread, g: Addr, a: Addr) {
    && With(w.m, t, g) && g in w.m.owner && w.m.owner[g] in w.m.runners
    && InPayload(w.m.runners[w.m.owner[g]].runs, g, a)
    && a in w.mem && a in w'.mem && w'.mem == w.mem[a := w'.mem[a]]
    && WritesIn(w, w', w.m.owner[g], g)
  }

  /** The runner of thread t works on its heap: on free runs, on a run that t itself
      uses, or on one that it has taken over to be freed. */
  ghost predicate OwnHeap(w: World, w': World, t: Thread, g: Addr) {
    && WritesIn(w, w', t, g)
    && (g in w.m.place ==> w.m.place[g] == User(t) || w.m.place[g] == Replaying)
  }

  lemma HowWritten(w: World, mv: Move, w': World)
    requires WorldInv(w) && Moves(w, mv, w')
    ensures w'.mem == w.mem
         || (exists g :: OwnHeap(w, w', Mover(mv), g))
         || (exists g, a :: OneWord(w, w', Mover(mv), g, a) && w'.m == w.m && w'.sides == w.sides)
  {
    var t := Mover(mv);
    match mv {
      case Local(step) => LocalWrites(w, step, w');
      case ReplayNext(_) => ReplayWrites(w, t, w');
      case Store(_, h, a, value) => StoreWrites(w, t, h, a, value, w');
      case WriteLink(_) => LinkWrites(w, t, w');
      case _ =>
    }
  }

  lemma LocalWrites(w: World, step: Step, w': World)
    requires WorldInv(w) && Moves(w, Local(step), w')
    ensures OwnHeap(w, w', Actor(step), Subject(step))
  {
    GuardedStep(w, step);
    LocalShape(w.m, step);
    hide WorldInv, RunnerOp, Enabled, Next, WritesIn;
    OperationFrame(w, Actor(step), Subject(step), w.sides[Actor(step)].cursor, w');
  }

  lemma ReplayWrites(w: World, t: Thread, w': World)
    requires WorldInv(w) && Moves(w, ReplayNext(t), w')
    ensures exists g :: OwnHeap(w, w', t, g)
  {
    ReplayWorld(w, t, w');
    CursorIsBatch(w, t);
    hide Inv, SidesInv, PcsInv, RunnerOp, Enabled, Next, WritesIn, Moves;
    ReplayShape(w.m, t);
    OperationFrame(w, t, w.sides[t].cursor - HEADER_SIZE, w.mem[w.sides[t].cursor], w');
    assert OwnHeap(w, w', t, w.sides[t].cursor - HEADER_SIZE);
  }

  lemma StoreWrites(w: World, t: Thread, h: Addr, a: Addr, value: int, w': World)
    requires WorldInv(w) && Moves(w, Store(t, h, a, value), w')
    ensures OneWord(w, w', t, h, a) && w'.m == w.m && w'.sides == w.sides
  {
    StoreKeeps(w, t, h, a, value, w');
    OwnedRun(w, h);
    hide WorldInv, InPayload, WritesIn;
  }

  lemma LinkWrites(w: World, t: Thread, w': World)
    requires WorldInv(w) && Moves(w, WriteLink(t), w')
    ensures OneWord(w, w', t, PcOf(w, t).h, PcOf(w, t).h + HEADER_SIZE) && w'.m == w.m && w'.sides == w.sides
  {
    WriteLinkKeeps(w, t, w');
    LinkWord(w, PcOf(w, t).h);
    hide WorldInv, InPayload, WritesIn;
  }

  lemma LinkWord(w: World, h: Addr)
    requires WorldInv(w) && h in w.m.owner
    ensures w.m.owner[h] in w.m.runners && InPayload(w.m.runners[w.m.owner[h]].runs, h, h + HEADER_SIZE)
    ensures h + HEADER_SIZE in w.mem
  {
    hide Inv, PcsInv, MemOk, Heap, AllLive, Distinct;
    OwnedRun(w, h);
    var o := w.m.owner[h];
    OwnRunner(w.m, o);
    OwnSideKnown(w, o);
    OwnWords(w.mem, w.m.runners[o].runs, w.m.runners[o].chunks, Id(o), h);
  }

  // The history and the words outside the chunks that a thread other than the owner
  // leaves alone.
  ghost predicate RunnerLeft(w: World, mv: Move, w': World, u: Thread)
    requires u in w.m.runners
  {
    && u in w'.m.runners && u in w.sides && u in w'.sides
    && var r, r', s, s' := w.m.runners[u], w'.m.runners[u], w.sides[u], w'.sides[u];
    || (r' == r && s' == s)
    || (mv.CasSuccess? && PcOf(w, mv.t).Linked?
        && var h := PcOf(w, mv.t).h;
        && With(w.m, mv.t, h) && h in w.m.owner && w.m.owner[h] == u
        && r' == r.(stack := [h] + r.stack) && s' == s.(head := h + HEADER_SIZE))
  }

  lemma OthersLeaveRunner(w: World, mv: Move, w': World, u: Thread)
    requires WorldInv(w) && Moves(w, mv, w') && u in w.m.runners && u != Mover(mv)
    ensures RunnerLeft(w, mv, w', u)
  {
    if mv.CasSuccess? {
      CasWorld(w, mv.t, w');
      SameThreads(w, u);
      hide WorldInv, Moves, Enabled, Next;
    } else {
      ImageEnabled(w, mv);
      SameThreads(w, u);
      OthersLeaveSide(w, mv, w', u);
      OthersLeaveHeap(w, mv, w', u);
    }
  }

  lemma OthersLeaveSide(w: World, mv: Move, w': World, u: Thread)
    requires Moves(w, mv, w') && u in w.sides && u != Mover(mv) && !mv.CasSuccess?
    ensures u in w'.sides && w'.sides[u] == w.sides[u]
  {
    hide Enabled, Next, InPayload, MemOk, BinsOk, R.MaskOk, PayloadsKept, ElsewhereKept;
  }

  lemma OthersLeaveHeap(w: World, mv: Move, w': World, u: Thread)
    requires Moves(w, mv, w') && u in w.m.runners && u != Mover(mv) && !mv.CasSuccess?
    requires Image(w, mv).Some? ==> Enabled(w.m, Image(w, mv).value)
    ensures u in w'.m.runners && w'.m.runners[u] == w.m.runners[u]
  {
    hide Guard, Effect, Enabled, Next;
    assert Image(w, mv).Some? && Image(w, mv).value.FinishPush? ==> mv.Local? || mv.Silent?;
    NoPush(w, mv);
    if Image(w, mv).Some? {
      ChunksStay(w.m, Image(w, mv).value, u);
    }
  }

  lemma NoPush(w: World, mv: Move)
    requires Guard(w, mv) && !mv.CasSuccess?
    ensures Image(w, mv).Some? ==> !Image(w, mv).value.FinishPush?
  {
    hide Enabled, InPayload;
  }

  /** Only its owner writes a heap. A move of another thread leaves the runs, chunks and
      batch of a runner, its bins, bitmask, lists and cursor as they were; at most it
      pushes one run that it holds on the remote stack; and of all words in the chunks
      it changes at most payload words of runs that it holds itself. Memory, bins, stack
      and batch go on spelling the same heap. */
  lemma OnlyOwnerWrites(w: World, mv: Move, w': World, u: Thread)
    requires WorldInv(w) && Moves(w, mv, w') && u in w.m.runners && u != Mover(mv)
    ensures RunnerLeft(w, mv, w', u)
    ensures forall a :: a in w.mem && !Elsewhere(w.m.runners[u].chunks, a) ==>
              && a in w'.mem
              && (w'.mem[a] == w.mem[a] || exists g :: With(w.m, Mover(mv), g) && InPayload(w.m.runners[u].runs, g, a))
    ensures SideOk(w', u)
  {
    hide Moves, Inv, PcsInv, SideGood, WritesIn, ChunksGrow, Elsewhere, InPayload;
    OthersLeaveRunner(w, mv, w', u);
    HowWritten(w, mv, w');
    MoveGrows(w, mv, w');
    MoveKeeps(w, mv, w');
    assert SideOk(w', u);
    var t := Mover(mv);
    if w'.mem != w.mem {
      if g :| OwnHeap(w, w', t, g) {
        OthersInside(w, w', t, g, u);
      } else {
        var g, a :| OneWord(w, w', t, g, a);
        if w.m.owner[g] != u {
          OthersInside(w, w', w.m.owner[g], g, u);
        }
      }
    }
  }

  // ---------- what a thread holds ----------

  /** A run stays as it is: place, owner and size. */
  ghost predicate RunSame(m: Machine, n: Machine, h: Addr)
    requires h in m.owner && h in m.place
  {
    var o := m.owner[h];
    && h in n.owner && n.owner[h] == o && h in n.place && n.place[h] == m.place[h]
    && o in m.runners && o in n.runners && h in Live(m.runners[o].runs) && h in Live(n.runners[o].runs)
    && Live(n.runners[o].runs)[h] == Live(m.runners[o].runs)[h]
  }

  lemma OthersLeavePlace(m: Machine, step: Step, u: Thread, h: Addr)
    requires Inv(m) && Enabled(m, step) && With(m, u, h) && Actor(step) != u && h in m.owner
    ensures var n := Next(m, step); h in n.owner && n.owner[h] == m.owner[h] && h in n.place && n.place[h] == m.place[h]
    ensures OwnOperation(step) ==> Subject(step) != h
    ensures step.ReplayOne? ==> m.runners[step.t].batch[0] != h
  {
    if OwnOperation(step) {
      LocalShape(m, step);
      if step.Allocate? {
        FreeUnowned(m, step.t, step.h);
      }
    } else if step.PopOwn? {
      Popped(m, step.t, step.idx, step.k);
    } else if step.PopHead? {
      Popped(m, step.t, step.idx, 0);
    } else if step.ReplayOne? {
      ReplayedNext(m, step.t);
    } else if step.Exchange? {
      StackParked(m, step.t);
    }
    hide CachesInv, RunnerOk, RunnersApart, Carve, Stretch, Release, WithChunk, LegalRunSize, NextFree, ChunkOk;
    hide FirstOwn, HasRoom;
  }

  lemma OthersLeaveRun(m: Machine, step: Step, u: Thread, h: Addr)
    requires Inv(m) && Enabled(m, step) && With(m, u, h) && Actor(step) != u && h in m.owner
    ensures RunSame(m, Next(m, step), h)
  {
    hide Inv, Enabled, Next;
    OthersLeavePlace(m, step, u, h);
    var o := m.owner[h];
    OwnerRuns(m, h);
    HeapKeepsRun(m, step, o, h);
  }

  lemma OthersLeaveHeld(w: World, mv: Move, w': World, u: Thread, h: Addr)
    requires WorldInv(w) && Moves(w, mv, w') && u != Mover(mv) && With(w.m, u, h)
    ensures h in w.m.owner && w.m.owner[h] in w.m.runners && RunSame(w.m, w'.m, h)
  {
    hide SidesInv, PcsInv, Inv, Moves, Enabled, Next, RunSame;
    PlacedOwnedIn(w, h);
    OwnedRun(w, h);
    MovesAreSteps(w, mv, w');
    if w'.m != w.m {
      var step :| Actor(step) == Mover(mv) && Enabled(w.m, step) && w'.m == Next(w.m, step);
      OthersLeaveRun(w.m, step, u, h);
    }
  }

  /** What a thread holds is its own: a move of another thread neither moves nor resizes
      a run that the thread uses, caches or is pushing, and changes none of its words. */
  lemma HeldRunKept(w: World, mv: Move, w': World, u: Thread, h: Addr)
    requires WorldInv(w) && Moves(w, mv, w') && u != Mover(mv) && With(w.m, u, h)
    ensures h in w.m.owner && RunSame(w.m, w'.m, h)
    ensures forall a :: a in w.mem && InPayload(w.m.runners[w.m.owner[h]].runs, h, a) ==>
              a in w'.mem && w'.mem[a] == w.mem[a]
  {
    hide Moves, WorldInv, Inv, WritesIn, ChunksGrow, InPayload, RunSame;
    OthersLeaveHeld(w, mv, w', u, h);
    MovesAreSteps(w, mv, w');
    MoveGrows(w, mv, w');
    HowWritten(w, mv, w');
    forall a | a in w.mem && InPayload(w.m.runners[w.m.owner[h]].runs, h, a)
      ensures a in w'.mem && w'.mem[a] == w.mem[a]
    {
      if w'.mem != w.mem {
        if g :| OwnHeap(w, w', Mover(mv), g) {
          PayloadStays(w, w', Mover(mv), g, h, a);
        } else {
          var g, b :| OneWord(w, w', Mover(mv), g, b);
          PayloadStays(w, w', w.m.owner[g], g, h, a);
        }
      }
    }
  }

  // ---------- runs of the system ----------

  /** The worlds that a sequence of moves goes through. */
  ghost predicate Run(ws: seq<World>, mvs: seq<Move>) {
    && |ws| == |mvs| + 1
    && forall i :: 0 <= i < |mvs| ==> Moves(ws[i], mvs[i], ws[i + 1])
  }

  lemma {:induction false} RunKeepsWorld(ws: seq<World>, mvs: seq<Move>, k: nat)
    requires Run(ws, mvs) && k <= |mvs| && WorldInv(ws[0])
    ensures WorldInv(ws[k])
    ensures exists steps :: Reaches(ws[0].m, steps, ws[k].m)
  {
    hide WorldInv, Moves, Enabled, Next;
    if k == 0 {
      NoSteps(ws[0].m);
    } else {
      RunKeepsWorld(ws, mvs, k - 1);
      var w, w' := ws[k - 1], ws[k];
      assert Moves(w, mvs[k - 1], w');
      MoveKeeps(w, mvs[k - 1], w');
      MovesAreSteps(w, mvs[k - 1], w');
      var steps :| Reaches(ws[0].m, steps, w.m);
      if w'.m != w.m {
        var step :| Actor(step) == Mover(mvs[k - 1]) && Enabled(w.m, step) && w'.m == Next(w.m, step);
        NoSteps(w'.m);
        OneMore(w.m, step, [], w'.m);
        Onwards(ws[0].m, steps, w.m, [step] + [], w'.m);
      }
    }
  }

  /** Safety of the shared heap: whatever single loads, writes and exchanges of any
      threads come after each other, every live run is safe in the sense of Threads and
      every runner's words spell its heap. */
  lemma SharedSafety(ws: seq<World>, mvs: seq<Move>)
    requires Run(ws, mvs) && InitWorld(ws[0])
    ensures var end := ws[|mvs|];
            && (forall t :: t in end.m.runners ==>
                      t in end.sides && SideOk(end, t) && Heap(end.m.runners[t].runs, end.m.runners[t].chunks))
            && (forall h :: h in end.m.owner ==> LiveRunSafe(end.m, h) && OwnerWordIs(end.mem, h, end.m.owner[h]))
            && (forall t, i, h :: 0 <= i < |CacheOf(end.m, t)| && h in CacheOf(end.m, t)[i] ==>
                   HeaderFits(end.mem, h, i))
  {
    InitWorldInv(ws[0]);
    RunKeepsWorld(ws, mvs, |mvs|);
    var end := ws[|mvs|];
    hide Inv, PcsInv, SideOk, Heap, Run, LiveRunSafe, OwnerWordIs, AllLive, Distinct;
    forall t | t in end.m.runners
      ensures t in end.sides && SideOk(end, t) && Heap(end.m.runners[t].runs, end.m.runners[t].chunks)
    {
      OwnRunner(end.m, t);
    }
    forall h | h in end.m.owner
      ensures LiveRunSafe(end.m, h) && OwnerWordIs(end.mem, h, end.m.owner[h])
    {
      LiveRunsSafe(end.m, h);
      OwnedRun(end, h);
    }
    forall t, i, h: Addr | 0 <= i < |CacheOf(end.m, t)| && h in CacheOf(end.m, t)[i]
      ensures HeaderFits(end.mem, h, i)
    {
      CachedHeader(end, t, i, h);
    }
  }

  /** The header of a cached run says that its payload is as large as the class promises. */
  lemma CachedHeader(w: World, t: Thread, i: nat, h: Addr)
    requires WorldInv(w) && i < |CacheOf(w.m, t)| && h in CacheOf(w.m, t)[i]
    ensures HeaderFits(w.mem, h, i)
  {
    CachedFits(w.m, t, i, h);
    hide Inv, PcsInv, BinsOk, R.MaskOk, R.Chain, Pack;
    var o := w.m.owner[h];
    assert SideOk(w, o);
    SizeInHeader(w.mem, w.m.runners[o].runs, w.m.runners[o].chunks, Id(o), h);
  }

  lemma SizeInHeader(mem: Memory, runs: Runs, chunks: set<Chunk>, id: int, h: Addr)
    requires MemOk(mem, runs, chunks, id) && h in runs
    ensures h in mem && SizeField(mem[h]) == runs[h].size
  {
    assert RunWords(mem, runs, id, h);
  }

  predicate HeaderFits(mem: Memory, h: Addr, i: nat) {
    h in mem && C.ClassBytes(i) <= SizeField(mem[h]) - HEADER_SIZE
  }

  /** Over any moves of the other threads, a run that a thread holds keeps its place, its
      size and every word of its payload. */
  lemma {:induction false} HeldRunKeptThroughout(ws: seq<World>, mvs: seq<Move>, u: Thread, h: Addr, k: nat)
    requires Run(ws, mvs) && k <= |mvs| && WorldInv(ws[0]) && With(ws[0].m, u, h)
    requires forall i :: 0 <= i < |mvs| ==> Mover(mvs[i]) != u
    ensures h in ws[0].m.owner && RunSame(ws[0].m, ws[k].m, h)
    ensures forall a :: a in ws[0].mem && InPayload(ws[0].m.runners[ws[0].m.owner[h]].runs, h, a) ==>
              a in ws[k].mem && ws[k].mem[a] == ws[0].mem[a]
  {
    hide WorldInv, Moves, Mover;
    if k == 0 {
      PlacedOwnedIn(ws[0], h);
    } else {
      HeldRunKeptThroughout(ws, mvs, u, h, k - 1);
      RunKeepsWorld(ws, mvs, k - 1);
      assert Moves(ws[k - 1], mvs[k - 1], ws[k]);
      HeldRunKept(ws[k - 1], mvs[k - 1], ws[k], u, h);
    }
  }

  lemma PlacedOwnedIn(w: World, h: Addr)
    requires WorldInv(w) && h in w.m.place
    ensures h in w.m.owner && RunSame(w.m, w.m, h)
  {
    PlacedOwned(w.m, h);
    OwnedRun(w, h);
    OnListOfOwner(w.m, w.m.owner[h], h);
  }

  // ---------- the operations of Runner are moves ----------

  /** A run is its holder's to write: it can store any value into any word of its payload,
      and that word alone changes. */
  lemma HolderStores(w: World, t: Thread, h: Addr, a: Addr, value: int) returns (w': World)
    requires WorldInv(w) && h in w.m.place && (w.m.place[h] == User(t) || w.m.place[h] == Cached(t))
    requires h in w.m.owner && w.m.owner[h] in w.m.runners
    requires InPayload(w.m.runners[w.m.owner[h]].runs, h, a) && a in w.mem
    ensures Moves(w, Store(t, h, a, value), w') && WorldInv(w')
    ensures w' == w.(mem := w.mem[a := value])
  {
    hide Inv, SidesInv, PcsInv, InPayload;
    OwnedRun(w, h);
    assert OwnerWordIs(w.mem, h, w.m.owner[h]);
    w' := w.(mem := w.mem[a := value]);
    hide WorldInv;
    StoreKeeps(w, t, h, a, value, w');
  }

  /** The allocator `a` is the runner of thread t in this world. */
  ghost predicate Tied(a: R.Allocator, w: World, t: Thread)
    reads a, a.bins, a.mask
  {
    && t in w.m.runners && t in w.sides && a.self == Id(t) && a.mem == w.mem
    && var r, s := w.m.runners[t], w.sides[t];
    && a.runs == r.runs && R.ChunkSet(a.chunks) == r.chunks && a.parked == r.stack
    && a.bins[..] == s.bins && a.mask[..] == s.mask && a.lists == s.lists && a.remoteHead == s.head
  }

  /** The world after thread t's runner has worked: what the allocator now holds. */
  ghost function Worked(w: World, m: Machine, a: R.Allocator, t: Thread, cursor: Addr): World
    reads a, a.bins, a.mask
  {
    World(m, a.mem, w.sides[t := Side(a.bins[..], a.mask[..], a.lists, a.remoteHead, cursor)], w.pcs)
  }

  // What a sound allocator promises is what a runner's operation promises.
  lemma WorkedOp(a: R.Allocator, w: World, m: Machine, t: Thread, h: Addr, cursor: Addr)
    requires a.Sound() && a.self == Id(t) && t in w.m.runners && t in w.sides && t in m.runners
    requires a.runs == m.runners[t].runs && R.ChunkSet(a.chunks) == m.runners[t].chunks
    requires a.remoteHead == w.sides[t].head
    requires PayloadsKept(w.mem, a.mem, w.m.runners[t].runs, h) && ElsewhereKept(w.mem, a.mem, m.runners[t].chunks)
    ensures RunnerOp(w, t, h, cursor, Worked(w, m, a, t, cursor))
  {
    hide Heap, MemOk, BinsOk, R.MaskOk, R.Chain, AllLive, Distinct, PayloadsKept, ElsewhereKept, R.SoundSystem;
  }

  lemma LocalMoves(w: World, step: Step, w': World)
    requires OwnOperation(step) && Enabled(w.m, step) && Guard(w, Local(step)) && w'.m == Next(w.m, step)
    requires Actor(step) in w.sides && RunnerOp(w, Actor(step), Subject(step), w.sides[Actor(step)].cursor, w')
    ensures Moves(w, Local(step), w')
  {
    hide Enabled, Next, RunnerOp;
  }

  /** `deallocate_bytes` on the thread's own runner is one move. */
  method FreeMove(a: R.Allocator, ghost w: World, t: Thread, h: Addr) returns (ghost w': World)
    requires WorldInv(w) && a.Valid() && Tied(a, w, t) && Guard(w, Local(FreeDirect(t, h)))
    modifies a`mem, a`lists, a`runs, a.bins, a.mask
    ensures a.Valid() && Tied(a, w', t) && Moves(w, Local(FreeDirect(t, h)), w')
  {
    hide Inv, SidesInv, PcsInv, Heap, RunnerOp, AllLive, Distinct, a.Sound, a.GrowthOk, Release, PayloadsKept;
    hide ElsewhereKept;
    hide Moves, RunnerState.Freed;
    GuardedStep(w, FreeDirect(t, h));
    PlacedOwned(w.m, h);
    OwnedRun(w, h);
    NotListed(w.m, t, h);
    a.DeallocateBytes(h + HEADER_SIZE);
    ghost var m := Next(w.m, FreeDirect(t, h));
    WorkedOp(a, w, m, t, h, w.sides[t].cursor);
    w' := Worked(w, m, a, t, w.sides[t].cursor);
    LocalMoves(w, FreeDirect(t, h), w');
  }

  /** Taking a run from a free run is one move. */
  method AllocateMove(a: R.Allocator, ghost w: World, t: Thread, h: Addr, needed: nat) returns (ghost w': World)
    requires WorldInv(w) && a.Valid() && Tied(a, w, t) && Guard(w, Local(Allocate(t, h, needed)))
    modifies a`mem, a`lists, a`runs, a.bins, a.mask
    ensures a.Valid() && Tied(a, w', t) && Moves(w, Local(Allocate(t, h, needed)), w')
  {
    hide Inv, SidesInv, PcsInv, Heap, RunnerOp, AllLive, Distinct, a.Sound, a.GrowthOk, Carve, LegalRunSize;
    hide PayloadsKept, ElsewhereKept;
    hide Moves, RunnerState.Carved;
    var p := a.AllocateFromFreeRun(h, needed);
    ghost var m := Next(w.m, Allocate(t, h, needed));
    WorkedOp(a, w, m, t, h, w.sides[t].cursor);
    w' := Worked(w, m, a, t, w.sides[t].cursor);
    LocalMoves(w, Allocate(t, h, needed), w');
  }

  /** Growing a run in place is one move, or nothing happens. */
  method ExpandMove(a: R.Allocator, ghost w: World, t: Thread, h: Addr, minNewBytes: nat) returns (payload: nat,
                    ghost w': World)
    requires WorldInv(w) && a.Valid() && Tied(a, w, t) && IsWord(minNewBytes) && Has(w.m, t, h)
    requires OwnerWordIs(w.mem, h, t)
    modifies a`mem, a`lists, a`runs, a.bins, a.mask
    ensures a.Valid() && Tied(a, w', t)
    ensures w' == w || exists needed :: Moves(w, Local(Expand(t, h, needed)), w')
  {
    hide Inv, SidesInv, PcsInv, Heap, RunnerOp, AllLive, Distinct, a.Sound, a.GrowthOk, Stretch, LegalRunSize;
    hide NormalizedRunBytes, PayloadsKept, ElsewhereKept;
    hide Moves, RunnerState.Expanded, GrantedSize;
    PlacedOwned(w.m, h);
    OwnedRun(w, h);
    NotListed(w.m, t, h);
    NormalizedIsLeast(minNewBytes);
    ghost var r := w.m.runners[t];
    payload := a.Expand(h + HEADER_SIZE, minNewBytes);
    if r.runs[h].size - HEADER_SIZE >= minNewBytes || !RunnerState.Reaches(r.runs, h, minNewBytes) {
      w' := w;
    } else {
      ghost var needed := NormalizedRunBytes(minNewBytes).value;
      assert Enabled(w.m, Expand(t, h, needed));
      ghost var m := Next(w.m, Expand(t, h, needed));
      WorkedOp(a, w, m, t, h, w.sides[t].cursor);
      w' := Worked(w, m, a, t, w.sides[t].cursor);
      LocalMoves(w, Expand(t, h, needed), w');
    }
  }

  ghost function AllChunks(m: Machine): set<Chunk> {
    set t, c | t in m.runners && c in m.runners[t].chunks :: c
  }

  // The chunk that a grow or a first chunk brings is apart from every thread's.
  lemma OneChunkFrom(m: Machine, t: Thread, site: RunnerState.Site, c: RunnerState.Core, c': RunnerState.Core)
    requires RunnerState.ChunksFrom(site, c, c') && |c'.chunks| == |c.chunks| + 1 && t in m.runners
    requires R.SoundSystem(site.system, c.calls, AllChunks(m)) && m.runners[t].chunks == R.ChunkSet(c.chunks)
    ensures var d := c'.chunks[0];
            && ChunkOk(d) && (forall u, e :: u in m.runners && e in m.runners[u].chunks ==> Apart(d, e))
            && R.ChunkSet(c'.chunks) == m.runners[t].chunks + {d} && Enabled(m, AddChunk(t, d))
            && Next(m, AddChunk(t, d)).runners == m.runners[t := Next(m, AddChunk(t, d)).runners[t]]
            && Next(m, AddChunk(t, d)).runners[t] == m.runners[t].(runs := WithChunk(m.runners[t].runs, d),
                   chunks := R.ChunkSet(c'.chunks))
            && R.SoundSystem(site.system, c'.calls, AllChunks(Next(m, AddChunk(t, d))))
  {
    hide ChunkOk, WithChunk;
    var d := c'.chunks[0];
    assert RunnerState.FromSystem(site, c.calls, c'.calls, d);
    var k: nat, n: nat :| c.calls <= k < c'.calls && RunnerState.Requestable(n) && site.system(k, n).Some? &&
        d == Chunk(site.system(k, n).value.base, n);
    R.SystemStays(site, c.calls, k, AllChunks(m), AllChunks(m));
    FreshForAll(m, site.system, k, n);
    assert c'.chunks == [d] + c.chunks by {
      assert c'.chunks[1..] == c.chunks;
    }
    R.ChunkSetCons(d, c.chunks);
    var n' := Next(m, AddChunk(t, d));
    forall e | e in AllChunks(n')
      ensures e in AllChunks(m) || e == d
    {
    }
    R.SystemStays(site, c.calls, c'.calls, AllChunks(m), AllChunks(n'));
  }

  /** A grow of a runner is one move, given a system that hands out no region twice, to
      whatever thread; a grow that fails is none. */
  method GrowMove(a: R.Allocator, ghost w: World, t: Thread, needed: nat) returns (grown: bool, ghost w': World)
    requires WorldInv(w) && a.Valid() && Tied(a, w, t)
    requires a.canGrow && a.deferred == 0 && LegalRunSize(needed) && IsWord(needed)
    requires R.SoundSystem(a.system, a.calls, AllChunks(w.m))
    modifies a`mem, a`lists, a`runs, a`chunks, a`calls, a`nextGrowth, a.bins, a.mask
    ensures a.Valid() && Tied(a, w', t) && R.SoundSystem(a.system, a.calls, AllChunks(w'.m))
    ensures if grown then exists c :: Moves(w, Local(AddChunk(t, c)), w') else w' == w
  {
    hide Inv, SidesInv, PcsInv, Heap, RunnerOp, AllLive, Distinct, a.Sound, a.GrowthOk, WithChunk, PayloadsKept;
    hide ElsewhereKept;
    hide Moves, RunnerState.Grown, RunnerState.GrowRefused, RunnerState.ChunksFrom, R.SoundSystem, R.ChunkSet;
    hide LegalRunSize;
    hide Live, Enabled, Next, WorldInv, RunnerState.Owned;
    ghost var c := a.Knows();
    GranularityKnown(a);
    a.WordsKnown();
    grown := a.GrowFor(needed);
    ByGrowing(a.Where(), c, needed);
    if !grown {
      SystemLater(a.Where(), c, a.Knows(), w.m, t);
      w' := w;
    } else {
      ghost var d := a.chunks[0];
      OneChunkFrom(w.m, t, a.Where(), c, a.Knows());
      ghost var m := Next(w.m, AddChunk(t, d));
      WorkedOp(a, w, m, t, 0, w.sides[t].cursor);
      w' := Worked(w, m, a, t, w.sides[t].cursor);
      LocalMoves(w, AddChunk(t, d), w');
    }
  }

  lemma ByGrowing(site: RunnerState.Site, c: RunnerState.Core, needed: nat)
    requires RunnerState.WordsOk(site, c) && RunnerState.PagesOk(site) && IsWord(needed)
    ensures RunnerState.ChunksFrom(site, c, RunnerState.Grown(site, c, needed).0)
  {
    RunnerState.ByGrowingFrom(site, c, needed);
  }

  lemma SystemLater(site: RunnerState.Site, c: RunnerState.Core, c': RunnerState.Core, m: Machine, t: Thread)
    requires RunnerState.ChunksFrom(site, c, c') && R.SoundSystem(site.system, c.calls, AllChunks(m))
    ensures R.SoundSystem(site.system, c'.calls, AllChunks(m))
  {
    R.SystemStays(site, c.calls, c'.calls, AllChunks(m), AllChunks(m));
  }

  /** The first chunk of a lazily made runner is one move, or none if it is refused. */
  method FirstChunkMove(a: R.Allocator, ghost w: World, t: Thread) returns (added: bool, ghost w': World)
    requires WorldInv(w) && a.Valid() && Tied(a, w, t) && a.deferred != 0
    requires R.SoundSystem(a.system, a.calls, AllChunks(w.m))
    modifies a`mem, a`lists, a`runs, a`chunks, a`calls, a`nextGrowth, a`deferred, a.bins, a.mask
    ensures a.Valid() && Tied(a, w', t) && R.SoundSystem(a.system, a.calls, AllChunks(w'.m))
    ensures if added then exists c :: Moves(w, Local(AddChunk(t, c)), w') else w' == w
  {
    hide Inv, SidesInv, PcsInv, Heap, RunnerOp, AllLive, Distinct, a.Sound, a.GrowthOk, WithChunk, PayloadsKept;
    hide ElsewhereKept;
    hide Moves, RunnerState.FirstChunked, RunnerState.Refused, RunnerState.ChunksFrom, R.SoundSystem, R.ChunkSet;
    hide a.Installed, RunnerState.OwnedChunkBytes, Live, Enabled, Next, WorldInv;
    ghost var c := a.Knows();
    GranularityKnown(a);
    a.WordsKnown();
    a.GrowthKnown();
    added := a.InstallFirstChunk(a.deferred);
    RunnerState.FirstFrom(a.Where(), c, c.deferred);
    if !added {
      a.StillDeferred();
      SystemLater(a.Where(), c, a.Knows(), w.m, t);
      w' := w;
    } else {
      ghost var d := a.chunks[0];
      OneChunkFrom(w.m, t, a.Where(), c, a.Knows());
      ghost var m := Next(w.m, AddChunk(t, d));
      WorkedOp(a, w, m, t, 0, w.sides[t].cursor);
      w' := Worked(w, m, a, t, w.sides[t].cursor);
      LocalMoves(w, AddChunk(t, d), w');
    }
  }

  lemma GranularityKnown(a: R.Allocator)
    requires a.Valid()
    ensures a.granularity > 0 && a.granularity % RUN_ALIGNMENT == 0 && IsWord(a.granularity)
  {
    a.GranularityOk();
  }

  lemma FreshForAll(m: Machine, system: RunnerState.System, calls: nat, n: nat)
    requires R.SoundSystem(system, calls, AllChunks(m)) && RunnerState.Requestable(n) && system(calls, n).Some?
    ensures var c := Chunk(system(calls, n).value.base, n);
            ChunkOk(c) && forall u, d :: u in m.runners && d in m.runners[u].chunks ==> Apart(c, d)
  {
    R.ArenaFits(system, calls, AllChunks(m), n);
    forall u, d | u in m.runners && d in m.runners[u].chunks
      ensures d in AllChunks(m)
    {
    }
  }

  /** The owner can always start a drain once it has walked its last batch to the end: the
      exchange leaves an empty stack, and the cursor at the runs that were on it. */
  lemma ExchangeMove(w: World, t: Thread) returns (w': World)
    requires WorldInv(w) && t in w.sides && w.sides[t].cursor == 0
    ensures t in w.m.runners && Moves(w, TakeAll(t), w') && WorldInv(w')
    ensures w'.sides == w.sides[t := w.sides[t].(head := 0, cursor := w.sides[t].head)]
    ensures w'.m.runners == w.m.runners[t := w.m.runners[t].(stack := [], batch := w.m.runners[t].stack)]
    ensures w'.mem == w.mem && w'.pcs == w.pcs
    ensures R.Chain(w'.mem, w'.sides[t].cursor, w.m.runners[t].stack)
  {
    hide Inv, SidesInv, PcsInv, Moves, R.Chain;
    ImageEnabled(w, TakeAll(t));
    w' := World(Next(w.m, Exchange(t)), w.mem, w.sides[t := w.sides[t].(head := 0, cursor := w.sides[t].head)], w.pcs);
    TakeAllMoves(w, t, w');
    MoveKeeps(w, TakeAll(t), w');
    TakeAllWorld(w, t, w');
    BatchSpelled(w', t);
  }

  lemma TakeAllMoves(w: World, t: Thread, w': World)
    requires Guard(w, TakeAll(t)) && Enabled(w.m, Exchange(t)) && w'.m == Next(w.m, Exchange(t))
    requires w'.sides == w.sides[t := w.sides[t].(head := 0, cursor := w.sides[t].head)]
    requires w'.mem == w.mem && w'.pcs == w.pcs
    ensures Moves(w, TakeAll(t), w')
  {
  }

  lemma BatchSpelled(w: World, t: Thread)
    requires WorldInv(w) && t in w.m.runners && t in w.sides
    ensures R.Chain(w.mem, w.sides[t].cursor, w.m.runners[t].batch)
  {
    hide Inv, PcsInv, MemOk, BinsOk, R.MaskOk, R.Chain;
    assert SideOk(w, t);
  }

  /** One round of the drain loop, a link read and a run freed, is one move. */
  method ReplayMove(a: R.Allocator, ghost w: World, t: Thread, cursor: Addr) returns (next: Addr, ghost w': World)
    requires WorldInv(w) && a.Valid() && Tied(a, w, t) && cursor == w.sides[t].cursor && cursor != 0
    modifies a`mem, a`lists, a`runs, a.bins, a.mask
    ensures a.Valid() && Tied(a, w', t) && Moves(w, ReplayNext(t), w') && w'.sides[t].cursor == next
  {
    hide Inv, SidesInv, PcsInv, Heap, RunnerOp, AllLive, Distinct, a.Sound, a.GrowthOk, Release, PayloadsKept;
    hide ElsewhereKept, Next, Moves;
    hide RunnerState.Freed, R.Chain;
    CursorIsBatch(w, t);
    ReplayShape(w.m, t);
    ReplayedLive(w.m, t);
    ReplayedNextIn(w.m, t);
    next := a.mem[cursor];
    a.DeallocateBytes(cursor);
    ghost var m := Next(w.m, ReplayOne(t));
    WorkedOp(a, w, m, t, cursor - HEADER_SIZE, next);
    w' := Worked(w, m, a, t, next);
    ReplayMoves(w, t, w');
  }

  lemma ReplayMoves(w: World, t: Thread, w': World)
    requires Enabled(w.m, ReplayOne(t)) && w'.m == Next(w.m, ReplayOne(t)) && Guard(w, ReplayNext(t))
    requires RunnerOp(w, t, w.sides[t].cursor - HEADER_SIZE, w.mem[w.sides[t].cursor], w')
    ensures Moves(w, ReplayNext(t), w')
  {
    hide Enabled, Next, RunnerOp;
  }

  lemma LoadMove(w: World, t: Thread, o: Thread, h: Addr, w1: World)
    requires WorldInv(w) && Guard(w, LoadHead(t, h)) && OwnerWordIs(w.mem, h, o) && o in w.sides
    requires w1 == World(w.m.(place := w.m.place[h := Pushing(t)]), w.mem, w.sides,
                 w.pcs[t := Loaded(o, h, w.sides[o].head)])
    ensures Moves(w, LoadHead(t, h), w1)
  {
    hide WorldInv;
  }

  lemma LinkMove(w: World, t: Thread, o: Thread, h: Addr, e: Addr, w1: World)
    requires PcOf(w, t) == Loaded(o, h, e)
    requires w1 == World(w.m, w.mem[h + HEADER_SIZE := e], w.sides, w.pcs[t := Linked(o, h, e)])
    ensures Moves(w, WriteLink(t), w1)
  {
  }

  lemma CasMove(w: World, t: Thread, o: Thread, h: Addr, e: Addr, w1: World)
    requires PcOf(w, t) == Linked(o, h, e) && o in w.sides && w.sides[o].head == e
    requires h in w.m.place && h in w.m.owner && w.m.owner[h] == o && o in w.m.runners
    requires w1 == World(w.m.(runners := w.m.runners[o := w.m.runners[o].(stack := [h] + w.m.runners[o].stack)],
                   place := w.m.place[h := Parked]),
                         w.mem, w.sides[o := w.sides[o].(head := h + HEADER_SIZE)], w.pcs[t := Ready])
    ensures Moves(w, CasSuccess(t), w1)
  {
  }

  /** Run h heads the remote stack of its owner o, linked to the head that was there,
      and nothing else has moved. */
  ghost predicate PushedOnto(w: World, t: Thread, o: Thread, h: Addr, w': World) {
    && o in w.m.runners && o in w.sides
    && w'.m.runners == w.m.runners[o := w.m.runners[o].(stack := [h] + w.m.runners[o].stack)]
    && w'.m.place == w.m.place[h := Parked]
    && w'.sides == w.sides[o := w.sides[o].(head := h + HEADER_SIZE)]
    && w'.mem == w.mem[h + HEADER_SIZE := w.sides[o].head] && w'.pcs == w.pcs[t := Ready]
    && R.Chain(w'.mem, h + HEADER_SIZE, [h] + w.m.runners[o].stack)
  }

  // From a head just loaded.
  lemma LinkAndSwap(w: World, t: Thread, o: Thread, h: Addr) returns (w1: World, w2: World)
    requires WorldInv(w) && o in w.sides && PcOf(w, t) == Loaded(o, h, w.sides[o].head)
    ensures Moves(w, WriteLink(t), w1) && Moves(w1, CasSuccess(t), w2)
    ensures WorldInv(w2) && PushedOnto(w, t, o, h, w2)
  {
    var s := w.sides[o];
    PcKnown(w, t);
    OwnedRun(w, h);
    hide WorldInv, Moves, Inv, SidesInv, PcsInv;
    w1 := World(w.m, w.mem[h + HEADER_SIZE := s.head], w.sides, w.pcs[t := Linked(o, h, s.head)]);
    LinkMove(w, t, o, h, s.head, w1);
    w2 := World(w.m.(runners := w.m.runners[o := w.m.runners[o].(stack := [h] + w.m.runners[o].stack)],
          place := w.m.place[h := Parked]),
                w1.mem, w.sides[o := s.(head := h + HEADER_SIZE)], w1.pcs[t := Ready]);
    CasMove(w1, t, o, h, s.head, w2);
    MoveKeeps(w, WriteLink(t), w1);
    MoveKeeps(w1, CasSuccess(t), w2);
    assert w1.pcs[t := Ready] == w.pcs[t := Ready];
    StackSpelled(w2, o);
  }

  lemma StackSpelled(w: World, o: Thread)
    requires WorldInv(w) && o in w.m.runners && o in w.sides
    ensures R.Chain(w.mem, w.sides[o].head, w.m.runners[o].stack)
  {
    hide Inv, PcsInv, MemOk, BinsOk, R.MaskOk, R.Chain;
    assert SideOk(w, o);
  }

  /** A retry gets there: a failed compare-exchange has reloaded the head, so the next
      try succeeds if nothing comes between, and the run heads its owner's stack. */
  lemma RetrySucceeds(w: World, t: Thread) returns (w1: World, w2: World, w3: World)
    requires WorldInv(w) && Guard(w, CasFailure(t))
    ensures Moves(w, CasFailure(t), w1) && Moves(w1, WriteLink(t), w2) && Moves(w2, CasSuccess(t), w3)
    ensures WorldInv(w3) && PushedOnto(w, t, PcOf(w, t).o, PcOf(w, t).h, w3)
  {
    hide WorldInv, Inv, SidesInv, PcsInv, R.Chain;
    var pc := PcOf(w, t);
    w1 := World(w.m, w.mem, w.sides, w.pcs[t := Loaded(pc.o, pc.h, w.sides[pc.o].head)]);
    MoveKeeps(w, CasFailure(t), w1);
    hide Moves;
    w2, w3 := LinkAndSwap(w1, t, pc.o, pc.h);
    assert w1.pcs[t := Ready] == w.pcs[t := Ready];
  }

  // The three moves of a push that nothing interrupts.
  lemma PushWorlds(w: World, t: Thread, o: Thread, h: Addr) returns (w1: World, w2: World, w3: World)
    requires WorldInv(w) && Guard(w, LoadHead(t, h)) && OwnerWordIs(w.mem, h, o)
    ensures Moves(w, LoadHead(t, h), w1) && Moves(w1, WriteLink(t), w2) && Moves(w2, CasSuccess(t), w3)
    ensures WorldInv(w3) && PushedOnto(w, t, o, h, w3)
  {
    hide WorldInv, Inv, Moves, SidesInv, PcsInv, R.Chain;
    LoadIsStep(w, t, h);
    OwnedRun(w, h);
    w1 := World(w.m.(place := w.m.place[h := Pushing(t)]), w.mem, w.sides,
                w.pcs[t := Loaded(o, h, w.sides[o].head)]);
    LoadMove(w, t, o, h, w1);
    MoveKeeps(w, LoadHead(t, h), w1);
    w2, w3 := LinkAndSwap(w1, t, o, h);
    assert w1.pcs[t := Ready] == w.pcs[t := Ready] && w1.m.place[h := Parked] == w.m.place[h := Parked];
  }

  /** `remote_push` by another thread, when nothing comes between, is three moves: the
      load, the link write and the compare-exchange. */
  method PushMoves(a: R.Allocator, ghost w: World, t: Thread, o: Thread, h: Addr) returns (ghost w1: World,
                   ghost w2: World, ghost w3: World)
    requires WorldInv(w) && a.Valid() && Tied(a, w, o) && Guard(w, LoadHead(t, h)) && OwnerWordIs(w.mem, h, o)
    modifies a`mem, a`remoteHead, a`parked
    ensures Moves(w, LoadHead(t, h), w1) && Moves(w1, WriteLink(t), w2) && Moves(w2, CasSuccess(t), w3)
    ensures a.Valid() && Tied(a, w3, o)
  {
    hide Inv, SidesInv, PcsInv, Heap, AllLive, Distinct, a.Sound, a.GrowthOk, Moves;
    LoadIsStep(w, t, h);
    PlacedOwned(w.m, h);
    OwnedRun(w, h);
    NotListed(w.m, o, h);
    w1, w2, w3 := PushWorlds(w, t, o, h);
    a.RemotePush(h + HEADER_SIZE);
  }
}
