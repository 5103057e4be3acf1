/** The owner-routed system: every thread has a runner of its own, frees what others
    allocated by pushing it on the owner's remote stack, and keeps runs, its own and
    others', in the class lists of its cache. A state machine whose steps are the
    operations of any number of threads. A push counts as two steps and a drain as an
    exchange and one step for each run; SharedHeap shows that the single loads and
    writes of the real protocol come down to these. */
module Threads {
  import opened Words
  import opened SizeClasses
  import opened Tiling
  import opened HeapOps
  import opened CanonicalForm
  import C = RunCache

  type Thread = nat

  /** Where an allocated run is: with a user, in a thread's cache, being pushed, on
      its owner's remote stack, or taken over by the owner and about to be freed. */
  datatype Place = User(t: Thread) | Cached(t: Thread) | Pushing(t: Thread) | Parked | Replaying

  /** The runner of one thread. */
  datatype Runner = Runner(runs: Runs, chunks: set<Chunk>, stack: seq<Addr>, batch: seq<Addr>)

  /** `owner` is the owner word in the header of an allocated run; `caches` holds the
      class lists of the threads that have used their cache. */
  datatype Machine = Machine(
    runners: map<Thread, Runner>,
    owner: map<Addr, Thread>,
    place: map<Addr, Place>,
    caches: map<Thread, seq<seq<Addr>>>)

  datatype Step =
    | CreateState(t: Thread)
    | AddChunk(t: Thread, c: Chunk)
    | Allocate(t: Thread, h: Addr, needed: nat)
    | Expand(t: Thread, h: Addr, needed: nat)
    | HandOver(t: Thread, h: Addr, u: Thread)
    | CacheIn(t: Thread, h: Addr, idx: nat)
    | PopOwn(t: Thread, idx: nat, k: nat)
    | PopHead(t: Thread, idx: nat)
    | FreeDirect(t: Thread, h: Addr)
    | BeginPush(t: Thread, h: Addr)
    | FinishPush(t: Thread, h: Addr)
    | Exchange(t: Thread)
    | ReplayOne(t: Thread)

  predicate Owns(m: Machine, t: Thread, h: Addr) {
    t in m.runners && h in m.owner && m.owner[h] == t && h in m.runners[t].runs
  }

  /** The run is in the hands of thread `t`. */
  predicate Has(m: Machine, t: Thread, h: Addr) {
    h in m.place && m.place[h] == User(t)
  }

  function CacheOf(m: Machine, t: Thread): seq<seq<Addr>> {
    if t in m.caches then m.caches[t] else C.Empties()
  }

  /** A class takes a run below its high watermark, and a run of the thread's own beyond
      it, as the refill does. */
  predicate HasRoom(m: Machine, t: Thread, h: Addr, idx: nat)
    requires h in m.owner
  {
    && idx < |CacheOf(m, t)|
    && (|CacheOf(m, t)[idx]| < C.HIGH_WATERMARK
        || (m.owner[h] == t && |CacheOf(m, t)[idx]| < C.HIGH_WATERMARK + C.REFILL_BATCH - 1))
  }

  /** The payload of the run is as large as the class promises. */
  predicate Fits(m: Machine, h: Addr, idx: nat) {
    h in m.owner
    && var o := m.owner[h];
       && o in m.runners && h in m.runners[o].runs
       && C.ClassBytes(idx) + HEADER_SIZE <= m.runners[o].runs[h].size
  }

  /** Entry k is the first of the list that the thread's own runner owns. */
  ghost predicate FirstOwn(m: Machine, t: Thread, s: seq<Addr>, k: nat) {
    && k < |s| && s[k] in m.owner && m.owner[s[k]] == t
    && forall j :: 0 <= j < k ==> s[j] in m.owner && m.owner[s[j]] != t
  }

  predicate Idle(m: Machine, t: Thread) {
    forall h :: h in m.place ==> m.place[h] != Pushing(t)
  }

  ghost predicate Enabled(m: Machine, step: Step) {
    match step
    case CreateState(t) => t !in m.runners
    case AddChunk(t, c) =>
      && t in m.runners && ChunkOk(c)
      && forall u, d :: u in m.runners && d in m.runners[u].chunks ==> Apart(c, d)
    case Allocate(t, h, needed) =>
      && t in m.runners && h in m.runners[t].runs && m.runners[t].runs[h].free
      && LegalRunSize(needed) && needed <= m.runners[t].runs[h].size
    case Expand(t, h, needed) =>
      && Owns(m, t, h) && h in m.place && m.place[h] == User(t)
      && !m.runners[t].runs[h].free && NextFree(m.runners[t].runs, h)
      && LegalRunSize(needed) && needed <= m.runners[t].runs[h].size + m.runners[t].runs[h + m.runners[t].runs[h].size].size
    case HandOver(t, h, u) => h in m.place && m.place[h] == User(t)
    case CacheIn(t, h, idx) => Has(m, t, h) && h in m.owner && HasRoom(m, t, h, idx) && Fits(m, h, idx)
    case PopOwn(t, idx, k) => idx < |CacheOf(m, t)| && FirstOwn(m, t, CacheOf(m, t)[idx], k)
    case PopHead(t, idx) => idx < |CacheOf(m, t)| && CacheOf(m, t)[idx] != []
    case FreeDirect(t, h) => Has(m, t, h) && Owns(m, t, h)
    case BeginPush(t, h) => Has(m, t, h) && h in m.owner && m.owner[h] != t && Idle(m, t)
    case FinishPush(t, h) => h in m.place && m.place[h] == Pushing(t) && h in m.owner && m.owner[h] in m.runners
    case Exchange(t) => t in m.runners && m.runners[t].batch == []
    case ReplayOne(t) => t in m.runners && m.runners[t].batch != [] && m.runners[t].batch[0] in m.runners[t].runs
  }

  /** The thread that takes the step. */
  function Actor(step: Step): Thread {
    step.t
  }

  ghost function Next(m: Machine, step: Step): Machine
    requires Enabled(m, step)
  {
    match step
    case CreateState(t) => m.(runners := m.runners[t := Runner(map[], {}, [], [])])
    case AddChunk(t, c) =>
      var r := m.runners[t];
      m.(runners := m.runners[t := r.(runs := WithChunk(r.runs, c), chunks := r.chunks + {c})])
    case Allocate(t, h, needed) =>
      var r := m.runners[t];
      m.(runners := m.runners[t := r.(runs := Carve(r.runs, h, needed))],
         owner := m.owner[h := t], place := m.place[h := User(t)])
    case Expand(t, h, needed) =>
      var r := m.runners[t];
      m.(runners := m.runners[t := r.(runs := Stretch(r.runs, h, needed))])
    case HandOver(t, h, u) => m.(place := m.place[h := User(u)])
    case CacheIn(t, h, idx) =>
      var lists := CacheOf(m, t);
      m.(place := m.place[h := Cached(t)], caches := m.caches[t := lists[idx := [h] + lists[idx]]])
    case PopOwn(t, idx, k) =>
      var lists := CacheOf(m, t);
      m.(place := m.place[lists[idx][k] := User(t)], caches := m.caches[t := lists[idx := C.Without(lists[idx], k)]])
    case PopHead(t, idx) =>
      var lists := CacheOf(m, t);
      m.(place := m.place[lists[idx][0] := User(t)], caches := m.caches[t := lists[idx := lists[idx][1..]]])
    case FreeDirect(t, h) => Freed(m, t, h)
    case BeginPush(t, h) => m.(place := m.place[h := Pushing(t)])
    case FinishPush(t, h) =>
      var o := m.owner[h];
      var r := m.runners[o];
      m.(runners := m.runners[o := r.(stack := [h] + r.stack)], place := m.place[h := Parked])
    case Exchange(t) =>
      var r := m.runners[t];
      m.(runners := m.runners[t := r.(stack := [], batch := r.stack)],
         place := map h | h in m.place :: if h in r.stack then Replaying else m.place[h])
    case ReplayOne(t) =>
      var r := m.runners[t];
      Freed(m.(runners := m.runners[t := r.(batch := r.batch[1..])]), t, r.batch[0])
  }

  // `deallocate_bytes` on the owner's runner.
  function Freed(m: Machine, t: Thread, h: Addr): Machine
    requires t in m.runners && h in m.runners[t].runs
  {
    var r := m.runners[t];
    m.(runners := m.runners[t := r.(runs := Release(r.runs, h))], owner := m.owner - {h}, place := m.place - {h})
  }

  // ---------- the invariant ----------

  /** What holds of one thread's runner: its heap is well formed, its owner words are
      exactly its allocated runs, and its lists hold what is parked with it. */
  ghost predicate RunnerGood(r: Runner, owner: map<Addr, Thread>, place: map<Addr, Place>, t: Thread) {
    && Heap(r.runs, r.chunks)
    && (forall h: Addr :: h in Live(r.runs) <==> h in owner && owner[h] == t)
    && (forall h: Addr :: h in r.stack <==> h in owner && owner[h] == t && h in place && place[h] == Parked)
    && (forall h: Addr :: h in r.batch <==> h in owner && owner[h] == t && h in place && place[h] == Replaying)
    && Distinct(r.stack) && Distinct(r.batch)
  }

  ghost predicate RunnerOk(m: Machine, t: Thread)
    requires t in m.runners
  {
    RunnerGood(m.runners[t], m.owner, m.place, t)
  }

  ghost predicate RunnersApart(m: Machine) {
    forall t, u, c, d :: t in m.runners && u in m.runners && t != u && c in m.runners[t].chunks && d in m.runners[u].chunks ==> Apart(c, d)
  }

  /** Every allocated run has one place and one owner, and every runner is in order. */
  ghost predicate HeapsInv(m: Machine) {
    && m.owner.Keys == m.place.Keys
    && (forall h :: h in m.owner ==> m.owner[h] in m.runners)
    && (forall t {:trigger RunnerOk(m, t)} :: t in m.runners ==> RunnerOk(m, t))
    && RunnersApart(m)
  }

  ghost predicate Init(m: Machine) {
    m == Machine(map[], map[], map[], map[])
  }

  /** Runs never meet, whichever threads' heaps they belong to: distinct runs occupy
      disjoint bytes. */
  lemma RunsNeverMeet(m: Machine, t: Thread, h: Addr, u: Thread, g: Addr)
    requires HeapsInv(m) && t in m.runners && u in m.runners && h < g
    requires h in m.runners[t].runs && g in m.runners[u].runs
    ensures h + m.runners[t].runs[h].size <= g
  {
    assert RunnerOk(m, t) && RunnerOk(m, u);
    hide Heap;
    OwnChunk(m.runners[t].runs, m.runners[t].chunks, h);
    OwnChunk(m.runners[u].runs, m.runners[u].chunks, g);
    if t == u {
      SameHeapApart(m.runners[t].runs, m.runners[t].chunks, h, g);
    } else {
      assert Apart(m.runners[t].runs[h].home, m.runners[u].runs[g].home);
    }
  }

  lemma OwnChunk(runs: Runs, chunks: set<Chunk>, h: Addr)
    requires Heap(runs, chunks) && h in runs
    ensures var c := runs[h].home; c in chunks && c.begin <= h && h + runs[h].size <= c.begin + c.bytes && runs[h].size > 0
  {
    assert RunOk(runs, chunks, h);
  }

  lemma SameHeapApart(runs: Runs, chunks: set<Chunk>, h: Addr, g: Addr)
    requires Heap(runs, chunks) && h in runs && g in runs && h < g
    ensures h + runs[h].size <= g
  {
  }

  // No address is a run of two threads.
  lemma OneHeap(m: Machine, t: Thread, u: Thread, h: Addr)
    requires HeapsInv(m) && t in m.runners && u in m.runners && h in m.runners[t].runs && h in m.runners[u].runs
    ensures t == u
  {
    assert RunnerOk(m, t) && RunnerOk(m, u);
    hide Heap;
    OwnChunk(m.runners[t].runs, m.runners[t].chunks, h);
    OwnChunk(m.runners[u].runs, m.runners[u].chunks, h);
    assert t != u ==> Apart(m.runners[t].runs[h].home, m.runners[u].runs[h].home);
  }

  // A free run of some heap has no owner.
  lemma FreeUnowned(m: Machine, t: Thread, h: Addr)
    requires HeapsInv(m) && t in m.runners && h in m.runners[t].runs && m.runners[t].runs[h].free
    ensures h !in m.owner
  {
    hide Heap, RunnersApart;
    if h in m.owner {
      var u := m.owner[h];
      assert RunnerOk(m, u) && RunnerOk(m, t);
      assert h in Live(m.runners[u].runs);
      OneHeap(m, t, u, h);
    }
  }

  // What happens to one run concerns only the runner that owns it.
  ghost predicate SameBut(owner: map<Addr, Thread>, place: map<Addr, Place>, owner': map<Addr, Thread>,
                          place': map<Addr, Place>, h: Addr) {
    && (forall x: Addr :: x != h ==> (x in owner <==> x in owner') && (x in place <==> x in place'))
    && (forall x: Addr :: x != h && x in owner ==> owner'[x] == owner[x])
    && (forall x: Addr :: x != h && x in place ==> place'[x] == place[x])
  }

  lemma OtherRunner(r: Runner, owner: map<Addr, Thread>, place: map<Addr, Place>, owner': map<Addr, Thread>,
                    place': map<Addr, Place>, u: Thread, h: Addr)
    requires RunnerGood(r, owner, place, u) && SameBut(owner, place, owner', place', h)
    requires h in owner ==> owner[h] != u
    requires h in owner' ==> owner'[h] != u
    ensures RunnerGood(r, owner', place', u)
  {
    hide Heap, Live, Distinct;
  }

  lemma SameChunks(m: Machine, n: Machine)
    requires RunnersApart(m) && n.runners.Keys == m.runners.Keys
    requires forall u :: u in m.runners ==> n.runners[u].chunks == m.runners[u].chunks
    ensures RunnersApart(n)
  {
  }

  /** A step of thread t's runner on run `h` keeps the invariant if it keeps that
      runner in order and touches nothing else. */
  lemma LocalStep(m: Machine, n: Machine, t: Thread, r': Runner, h: Addr)
    requires HeapsInv(m) && t in m.runners && n.runners == m.runners[t := r'] && r'.chunks == m.runners[t].chunks
    requires SameBut(m.owner, m.place, n.owner, n.place, h) && n.owner.Keys == n.place.Keys
    requires h in m.owner ==> m.owner[h] == t
    requires h in n.owner ==> n.owner[h] == t
    requires RunnerGood(r', n.owner, n.place, t)
    ensures HeapsInv(n)
  {
    hide RunnerGood, RunnersApart;
    forall u | u in n.runners
      ensures RunnerOk(n, u)
    {
      if u != t {
        assert RunnerOk(m, u);
        OtherRunner(m.runners[u], m.owner, m.place, n.owner, n.place, u, h);
      }
    }
    SameChunks(m, n);
  }

  /** A run that moves between users, caches and pushers concerns no runner. */
  lemma MoveKeeps(m: Machine, h: Addr, p: Place, caches: map<Thread, seq<seq<Addr>>>)
    requires HeapsInv(m) && h in m.place && !m.place[h].Parked? && !m.place[h].Replaying? && !p.Parked? && !p.Replaying?
    ensures HeapsInv(m.(place := m.place[h := p], caches := caches))
  {
    hide Heap, RunnersApart, Distinct, Live;
    var n := m.(place := m.place[h := p], caches := caches);
    var t := m.owner[h];
    assert RunnerOk(m, t);
    LocalStep(m, n, t, m.runners[t], h);
  }

  lemma CarvedRunner(r: Runner, owner: map<Addr, Thread>, place: map<Addr, Place>, t: Thread, h: Addr, needed: nat)
    requires RunnerGood(r, owner, place, t) && h in r.runs && r.runs[h].free && h !in owner
    requires LegalRunSize(needed) && needed <= r.runs[h].size
    ensures RunnerGood(r.(runs := Carve(r.runs, h, needed)), owner[h := t], place[h := User(t)], t)
  {
    CarveKeeps(r.runs, r.chunks, h, needed);
    hide Heap, Distinct, Live, Carve, LegalRunSize;
    assert forall x: Addr :: x in Live(Carve(r.runs, h, needed)) <==> x in Live(r.runs) || x == h;
  }

  lemma AllocateKeeps(m: Machine, t: Thread, h: Addr, needed: nat)
    requires HeapsInv(m) && Enabled(m, Allocate(t, h, needed))
    ensures HeapsInv(Next(m, Allocate(t, h, needed)))
  {
    FreeUnowned(m, t, h);
    hide RunnerGood, RunnersApart, Carve, LegalRunSize;
    var r := m.runners[t];
    assert RunnerOk(m, t);
    CarvedRunner(r, m.owner, m.place, t, h, needed);
    LocalStep(m, Next(m, Allocate(t, h, needed)), t, r.(runs := Carve(r.runs, h, needed)), h);
  }

  lemma StretchedRunner(r: Runner, owner: map<Addr, Thread>, place: map<Addr, Place>, t: Thread, h: Addr, needed: nat)
    requires RunnerGood(r, owner, place, t) && h in r.runs && !r.runs[h].free && NextFree(r.runs, h)
    requires LegalRunSize(needed) && needed <= r.runs[h].size + r.runs[h + r.runs[h].size].size
    ensures RunnerGood(r.(runs := Stretch(r.runs, h, needed)), owner, place, t)
  {
    StretchKeeps(r.runs, r.chunks, h, needed);
    assert h in Live(r.runs);
    hide Heap, Distinct, Live, Stretch, LegalRunSize;
    assert forall x: Addr :: x in Live(Stretch(r.runs, h, needed)) <==> x in Live(r.runs);
  }

  lemma ExpandKeeps(m: Machine, t: Thread, h: Addr, needed: nat)
    requires HeapsInv(m) && Enabled(m, Expand(t, h, needed))
    ensures HeapsInv(Next(m, Expand(t, h, needed)))
  {
    hide RunnerGood, RunnersApart, Stretch, LegalRunSize;
    var r := m.runners[t];
    assert RunnerOk(m, t);
    StretchedRunner(r, m.owner, m.place, t, h, needed);
    LocalStep(m, Next(m, Expand(t, h, needed)), t, r.(runs := Stretch(r.runs, h, needed)), h);
  }

  // What is left of the batch without run h.
  lemma ReleasedBatch(s: seq<Addr>, h: Addr, batch: seq<Addr>)
    requires Distinct(s) && (if h in s then s != [] && s[0] == h && batch == s[1..] else batch == s)
    ensures Distinct(batch) && forall x: Addr :: x in batch <==> x in s && x != h
  {
    if h in s {
      RestOf(s);
    }
  }

  lemma FewerGood(r: Runner, owner: map<Addr, Thread>, place: map<Addr, Place>, t: Thread, h: Addr, runs: Runs,
                  batch: seq<Addr>)
    requires RunnerGood(r, owner, place, t) && h in owner && h in place && place[h] != Parked
    requires Heap(runs, r.chunks) && Distinct(batch)
    requires forall x: Addr :: x in Live(runs) <==> x in Live(r.runs) && x != h
    requires forall x: Addr :: x in batch <==> x in r.batch && x != h
    ensures RunnerGood(r.(runs := runs, batch := batch), owner - {h}, place - {h}, t)
  {
    hide Heap, Live, Distinct;
  }

  // Freeing a run that is on neither list, or the first of the batch.
  lemma ReleasedRunner(r: Runner, owner: map<Addr, Thread>, place: map<Addr, Place>, t: Thread, h: Addr,
                       batch: seq<Addr>)
    requires RunnerGood(r, owner, place, t) && h in owner && owner[h] == t
    requires h in place && place[h] != Parked
    requires batch == if place[h] == Replaying then r.batch[1..] else r.batch
    requires place[h] == Replaying ==> r.batch != [] && r.batch[0] == h
    ensures h in r.runs
    ensures RunnerGood(r.(runs := Release(r.runs, h), batch := batch), owner - {h}, place - {h}, t)
    ensures Live(Release(r.runs, h)) == Live(r.runs) - {h}
  {
    assert h in Live(r.runs);
    ReleaseKeeps(r.runs, r.chunks, h);
    hide Heap, Live, Release, Distinct;
    assert place[h] == Replaying <==> h in r.batch;
    ReleasedBatch(r.batch, h, batch);
    hide RunnerGood;
    assert forall x: Addr :: x in Live(Release(r.runs, h)) <==> x in Live(r.runs) && x != h;
    FewerGood(r, owner, place, t, h, Release(r.runs, h), batch);
  }

  lemma RestOf(s: seq<Addr>)
    requires s != [] && Distinct(s)
    ensures forall h: Addr :: h in s[1..] <==> h in s && h != s[0]
    ensures Distinct(s[1..])
  {
    forall h: Addr | h in s && h != s[0]
      ensures h in s[1..]
    {
      var i :| 0 <= i < |s| && s[i] == h;
      assert s[1..][i - 1] == h;
    }
  }

  lemma FreedKeeps(m: Machine, t: Thread, h: Addr)
    requires HeapsInv(m) && Owns(m, t, h) && h in m.place && m.place[h] != Parked && m.place[h] != Replaying
    ensures HeapsInv(Freed(m, t, h))
    ensures Live(Freed(m, t, h).runners[t].runs) == Live(m.runners[t].runs) - {h}
  {
    hide RunnerGood, RunnersApart, Release, Live;
    var r := m.runners[t];
    assert RunnerOk(m, t);
    ReleasedRunner(r, m.owner, m.place, t, h, r.batch);
    LocalStep(m, Freed(m, t, h), t, r.(runs := Release(r.runs, h)), h);
  }

  lemma ReplayedNext(m: Machine, t: Thread)
    requires HeapsInv(m) && Enabled(m, ReplayOne(t))
    ensures var r := m.runners[t];
            var h := r.batch[0];
            && h in m.place && m.place[h] == Replaying && Owns(m, t, h)
            && Next(m, ReplayOne(t)) ==
                 Machine(m.runners[t := r.(runs := Release(r.runs, h), batch := r.batch[1..])], m.owner - {h},
                     m.place - {h}, m.caches)
  {
    hide RunnersApart, Release, Live, Heap, Distinct;
    var h: Addr := m.runners[t].batch[0];
    assert RunnerOk(m, t) && h in m.runners[t].batch;
  }

  lemma ReplayKeeps(m: Machine, t: Thread)
    requires HeapsInv(m) && Enabled(m, ReplayOne(t))
    ensures HeapsInv(Next(m, ReplayOne(t)))
    ensures var h := m.runners[t].batch[0];
            Owns(m, t, h) && Live(Next(m, ReplayOne(t)).runners[t].runs) == Live(m.runners[t].runs) - {h}
  {
    ReplayedNext(m, t);
    hide HeapsInv, Live, Enabled, Next, Release;
    FirstReplayed(m, t, Next(m, ReplayOne(t)));
  }

  lemma FirstReplayed(m: Machine, t: Thread, n: Machine)
    requires HeapsInv(m) && t in m.runners && m.runners[t].batch != [] && Owns(m, t, m.runners[t].batch[0])
    requires var r, h := m.runners[t], m.runners[t].batch[0];
             && h in m.place && m.place[h] == Replaying
             && n == Machine(m.runners[t := r.(runs := Release(r.runs, h), batch := r.batch[1..])], m.owner - {h},
                             m.place - {h}, m.caches)
    ensures HeapsInv(n) && t in n.runners
    ensures Live(n.runners[t].runs) == Live(m.runners[t].runs) - {m.runners[t].batch[0]}
  {
    hide RunnerGood, RunnersApart, Release, Live;
    var r := m.runners[t];
    var h: Addr := r.batch[0];
    assert RunnerOk(m, t);
    ReleasedRunner(r, m.owner, m.place, t, h, r.batch[1..]);
    LocalStep(m, n, t, r.(runs := Release(r.runs, h), batch := r.batch[1..]), h);
  }

  lemma PushedRunner(r: Runner, owner: map<Addr, Thread>, place: map<Addr, Place>, t: Thread, h: Addr)
    requires RunnerGood(r, owner, place, t) && h in owner && owner[h] == t
    requires h in place && place[h] != Parked && place[h] != Replaying
    ensures RunnerGood(r.(stack := [h] + r.stack), owner, place[h := Parked], t)
  {
    hide Heap, Live;
    assert h !in r.stack;
    forall i, j | 0 <= i < j < |[h] + r.stack|
      ensures ([h] + r.stack)[i] != ([h] + r.stack)[j]
    {
      assert ([h] + r.stack)[j] == r.stack[j - 1] && r.stack[j - 1] in r.stack;
    }
  }

  lemma FinishPushKeeps(m: Machine, t: Thread, h: Addr)
    requires HeapsInv(m) && Enabled(m, FinishPush(t, h))
    ensures HeapsInv(Next(m, FinishPush(t, h)))
  {
    hide RunnerGood, RunnersApart;
    var o := m.owner[h];
    assert RunnerOk(m, o);
    PushedRunner(m.runners[o], m.owner, m.place, o, h);
    LocalStep(m, Next(m, FinishPush(t, h)), o, m.runners[o].(stack := [h] + m.runners[o].stack), h);
  }

  lemma ExchangedRunner(r: Runner, owner: map<Addr, Thread>, place: map<Addr, Place>, place': map<Addr, Place>,
                        t: Thread)
    requires RunnerGood(r, owner, place, t) && r.batch == []
    requires place' == map h | h in place :: if h in r.stack then Replaying else place[h]
    ensures RunnerGood(r.(stack := [], batch := r.stack), owner, place', t)
  {
    hide Heap, Live;
  }

  lemma ExchangeElsewhere(r: Runner, q: Runner, owner: map<Addr, Thread>, place: map<Addr, Place>,
                          place': map<Addr, Place>, t: Thread, u: Thread)
    requires RunnerGood(r, owner, place, t) && RunnerGood(q, owner, place, u) && t != u
    requires place' == map h | h in place :: if h in r.stack then Replaying else place[h]
    ensures RunnerGood(q, owner, place', u)
  {
    hide Heap, Live, Distinct;
  }

  lemma ExchangeKeeps(m: Machine, t: Thread)
    requires HeapsInv(m) && Enabled(m, Exchange(t))
    ensures HeapsInv(Next(m, Exchange(t)))
  {
    hide RunnerGood, RunnersApart;
    var n, r := Next(m, Exchange(t)), m.runners[t];
    assert RunnerOk(m, t);
    forall u | u in n.runners
      ensures RunnerOk(n, u)
    {
      assert RunnerOk(m, u);
      if u == t {
        ExchangedRunner(r, m.owner, m.place, n.place, t);
      } else {
        ExchangeElsewhere(r, m.runners[u], m.owner, m.place, n.place, t, u);
      }
    }
    SameChunks(m, n);
  }

  lemma ChunkedRunner(r: Runner, owner: map<Addr, Thread>, place: map<Addr, Place>, t: Thread, c: Chunk)
    requires RunnerGood(r, owner, place, t) && ChunkOk(c) && forall d :: d in r.chunks ==> Apart(c, d)
    ensures RunnerGood(r.(runs := WithChunk(r.runs, c), chunks := r.chunks + {c}), owner, place, t)
  {
    ChunkKeeps(r.runs, r.chunks, c);
    hide Heap, Live, WithChunk, Distinct;
  }

  lemma AddChunkKeeps(m: Machine, t: Thread, c: Chunk)
    requires HeapsInv(m) && Enabled(m, AddChunk(t, c))
    ensures HeapsInv(Next(m, AddChunk(t, c)))
  {
    hide RunnerGood, WithChunk, ChunkOk, RunnersApart;
    var n, r := Next(m, AddChunk(t, c)), m.runners[t];
    assert RunnerOk(m, t);
    ChunkedRunner(r, m.owner, m.place, t, c);
    forall u | u in n.runners
      ensures RunnerOk(n, u)
    {
      assert RunnerOk(m, u);
    }
    ChunksStayApart(m, n, t, c);
  }

  lemma ChunksStayApart(m: Machine, n: Machine, t: Thread, c: Chunk)
    requires RunnersApart(m) && n.runners.Keys == m.runners.Keys && t in m.runners
    requires forall u, d :: u in m.runners && d in m.runners[u].chunks ==> Apart(c, d)
    requires forall u :: u in m.runners && u != t ==> n.runners[u].chunks == m.runners[u].chunks
    requires n.runners[t].chunks == m.runners[t].chunks + {c}
    ensures RunnersApart(n)
  {
    forall v, u, x, y | v in n.runners && u in n.runners && v != u && x in n.runners[v].chunks &&
        y in n.runners[u].chunks
      ensures Apart(x, y)
    {
      if x == c && y in m.runners[u].chunks {
        assert Apart(c, y);
      } else if y == c && x in m.runners[v].chunks {
        assert Apart(c, x);
      }
    }
  }

  lemma CreateKeeps(m: Machine, t: Thread)
    requires HeapsInv(m) && Enabled(m, CreateState(t))
    ensures HeapsInv(Next(m, CreateState(t)))
  {
    var n := Next(m, CreateState(t));
    NoRuns(m.owner, m.place, t);
    hide RunnerGood, RunnersApart;
    forall u | u in n.runners
      ensures RunnerOk(n, u)
    {
      if u != t {
        assert RunnerOk(m, u);
      }
    }
    NoChunksApart(m, n, t);
  }

  lemma NoChunksApart(m: Machine, n: Machine, t: Thread)
    requires RunnersApart(m) && t !in m.runners && n.runners == m.runners[t := Runner(map[], {}, [], [])]
    ensures RunnersApart(n)
  {
  }

  lemma NoRuns(owner: map<Addr, Thread>, place: map<Addr, Place>, t: Thread)
    requires forall h :: h in owner ==> owner[h] != t
    ensures RunnerGood(Runner(map[], {}, [], []), owner, place, t)
  {
  }

  // ---------- the caches ----------

  ghost predicate InCache(lists: seq<seq<Addr>>, h: Addr) {
    exists i :: 0 <= i < |lists| && h in lists[i]
  }

  /** Entries of runs that other threads own. */
  ghost function Strangers(s: seq<Addr>, owner: map<Addr, Thread>, t: Thread): nat {
    if s == [] then 0 else (if s[0] in owner && owner[s[0]] == t then 0 else 1) + Strangers(s[1..], owner, t)
  }

  /** No run is twice in a cache, be it in one class or in two. */
  ghost predicate OncePerCache(lists: seq<seq<Addr>>) {
    && (forall i :: 0 <= i < |lists| ==> Distinct(lists[i]))
    && (forall i, j, h :: 0 <= i < |lists| && 0 <= j < |lists| && i != j && h in lists[i] ==> h !in lists[j])
  }

  ghost predicate Bounded(lists: seq<seq<Addr>>, owner: map<Addr, Thread>, t: Thread) {
    forall i :: 0 <= i < |lists| ==>
      |lists[i]| <= C.HIGH_WATERMARK + C.REFILL_BATCH - 1 && Strangers(lists[i], owner, t) <= C.HIGH_WATERMARK
  }

  /** The class lists of a thread hold exactly the runs whose place is its cache, each
      once, and no class holds too many. */
  ghost predicate CacheGood(lists: seq<seq<Addr>>, owner: map<Addr, Thread>, place: map<Addr, Place>, t: Thread) {
    && |lists| == C.CLASS_COUNT
    && (forall h: Addr {:trigger InCache(lists, h)} {:trigger h in place} :: InCache(lists, h) <==>
           h in place && place[h] == Cached(t))
    && OncePerCache(lists) && Bounded(lists, owner, t)
  }

  ghost predicate CacheOk(m: Machine, t: Thread) {
    CacheGood(CacheOf(m, t), m.owner, m.place, t)
  }

  ghost predicate CachesInv(m: Machine) {
    forall t {:trigger CacheOk(m, t)} :: CacheOk(m, t)
  }

  ghost predicate CacheFits(m: Machine, t: Thread) {
    forall i, h :: 0 <= i < |CacheOf(m, t)| && h in CacheOf(m, t)[i] ==> Fits(m, h, i)
  }

  /** Whatever a class holds can serve the requests of that class. */
  ghost predicate FitInv(m: Machine) {
    forall t {:trigger CacheFits(m, t)} :: CacheFits(m, t)
  }

  /** Every allocated run is in exactly one place: with a user, in one list of one cache,
      with a pusher, or on its owner's stack or batch; every runner is in order, and every
      cached run is as large as its class promises. */
  ghost predicate Inv(m: Machine) {
    HeapsInv(m) && CachesInv(m) && FitInv(m)
  }

  lemma InitInv(m: Machine)
    requires Init(m)
    ensures Inv(m)
  {
    forall t
      ensures CacheOk(m, t)
    {
      assert forall h: Addr :: !InCache(C.Empties(), h);
    }
  }

  lemma {:induction false} StrangersFrame(s: seq<Addr>, owner: map<Addr, Thread>, owner': map<Addr, Thread>, t: Thread)
    requires forall h: Addr :: h in s ==> h in owner && h in owner' && owner'[h] == owner[h]
    ensures Strangers(s, owner', t) == Strangers(s, owner, t)
  {
    if s == [] {
    } else {
      var h: Addr := s[0];
      assert h in s;
      assert forall x: Addr :: x in s[1..] ==> x in s;
      StrangersFrame(s[1..], owner, owner', t);
    }
  }

  lemma {:induction false} StrangersBound(s: seq<Addr>, owner: map<Addr, Thread>, t: Thread)
    ensures Strangers(s, owner, t) <= |s|
  {
    if s == [] {
    } else {
      StrangersBound(s[1..], owner, t);
    }
  }

  lemma {:induction false} StrangersFewer(s: seq<Addr>, owner: map<Addr, Thread>, t: Thread, k: nat)
    requires k < |s|
    ensures Strangers(C.Without(s, k), owner, t) <= Strangers(s, owner, t)
  {
    if k == 0 {
      assert C.Without(s, 0) == s[1..];
    } else {
      assert C.Without(s, k)[0] == s[0] && C.Without(s, k)[1..] == C.Without(s[1..], k - 1);
      StrangersFewer(s[1..], owner, t, k - 1);
    }
  }

  lemma CacheFrame(lists: seq<seq<Addr>>, owner: map<Addr, Thread>, place: map<Addr, Place>, owner': map<Addr, Thread>,
                   place': map<Addr, Place>, t: Thread)
    requires CacheGood(lists, owner, place, t)
    requires forall h: Addr {:trigger h in place'} :: h in place' && place'[h] == Cached(t) <==>
               h in place && place[h] == Cached(t)
    requires forall h: Addr {:trigger h in place} :: h in place && place[h] == Cached(t) ==>
               h in owner && h in owner' && owner'[h] == owner[h]
    ensures CacheGood(lists, owner', place', t)
  {
    hide OncePerCache;
    forall i | 0 <= i < |lists|
      ensures Strangers(lists[i], owner', t) == Strangers(lists[i], owner, t)
    {
      forall h: Addr | h in lists[i]
        ensures h in owner && h in owner' && owner'[h] == owner[h]
      {
        assert InCache(lists, h);
      }
      StrangersFrame(lists[i], owner, owner', t);
    }
    forall h: Addr
      ensures InCache(lists, h) <==> h in place' && place'[h] == Cached(t)
    {
      assert InCache(lists, h) <==> h in place && place[h] == Cached(t);
    }
  }

  /** A step that moves no run into or out of a cache keeps the caches in order. */
  lemma NoCacheMove(m: Machine, n: Machine)
    requires HeapsInv(m) && CachesInv(m) && n.caches == m.caches
    requires forall h: Addr, u: Thread :: h in n.place && n.place[h] == Cached(u) <==>
               h in m.place && m.place[h] == Cached(u)
    requires forall h: Addr {:trigger h in n.owner} :: h in m.owner && h in n.owner ==> n.owner[h] == m.owner[h]
    requires forall h: Addr {:trigger h in m.place} :: h in m.place && m.place[h].Cached? ==> h in n.owner
    ensures CachesInv(n)
  {
    hide CacheGood, RunnerOk, RunnersApart;
    forall t
      ensures CacheOk(n, t)
    {
      assert CacheOk(m, t) && CacheOf(n, t) == CacheOf(m, t);
      CacheFrame(CacheOf(m, t), m.owner, m.place, n.owner, n.place, t);
    }
  }

  lemma PushedCache(lists: seq<seq<Addr>>, owner: map<Addr, Thread>, place: map<Addr, Place>, t: Thread, h: Addr,
                    idx: nat)
    requires CacheGood(lists, owner, place, t) && idx < |lists| && h in place && place[h] == User(t) && h in owner
    requires |lists[idx]| < C.HIGH_WATERMARK || (owner[h] == t && |lists[idx]| < C.HIGH_WATERMARK + C.REFILL_BATCH - 1)
    ensures CacheGood(lists[idx := [h] + lists[idx]], owner, place[h := Cached(t)], t)
  {
    var lists', s' := lists[idx := [h] + lists[idx]], [h] + lists[idx];
    assert !InCache(lists, h);
    assert s'[0] == h && s'[1..] == lists[idx];
    StrangersBound(lists[idx], owner, t);
    assert Strangers(s', owner, t) <= C.HIGH_WATERMARK;
    forall x: Addr
      ensures InCache(lists', x) <==> InCache(lists, x) || x == h
    {
      if InCache(lists, x) {
        var i :| 0 <= i < |lists| && x in lists[i];
        assert x in lists'[i];
      }
      if InCache(lists', x) {
        var i :| 0 <= i < |lists'| && x in lists'[i];
        assert i != idx ==> x in lists[i];
        assert i == idx ==> x == h || x in lists[idx];
      }
      assert h in lists'[idx];
    }
    PushedOnce(lists, h, idx);
  }

  lemma PushedOnce(lists: seq<seq<Addr>>, h: Addr, idx: nat)
    requires OncePerCache(lists) && idx < |lists| && !InCache(lists, h)
    ensures OncePerCache(lists[idx := [h] + lists[idx]])
  {
    var lists' := lists[idx := [h] + lists[idx]];
    assert forall i :: 0 <= i < |lists| ==> h !in lists[i];
    forall i, j, x | 0 <= i < |lists'| && 0 <= j < |lists'| && i != j && x in lists'[i]
      ensures x !in lists'[j]
    {
      if x == h {
        assert x !in lists[j];
      } else {
        assert x in lists[i];
      }
    }
    forall a, b | 0 <= a < b < |lists'[idx]|
      ensures lists'[idx][a] != lists'[idx][b]
    {
      assert lists'[idx][b] == lists[idx][b - 1] && lists[idx][b - 1] in lists[idx];
    }
  }

  lemma TakenCache(lists: seq<seq<Addr>>, owner: map<Addr, Thread>, place: map<Addr, Place>, t: Thread, idx: nat,
                   k: nat)
    requires CacheGood(lists, owner, place, t) && idx < |lists| && k < |lists[idx]|
    ensures var h := lists[idx][k];
            && h in place && place[h] == Cached(t)
            && CacheGood(lists[idx := C.Without(lists[idx], k)], owner, place[h := User(t)], t)
  {
    var h: Addr := lists[idx][k];
    var lists' := lists[idx := C.Without(lists[idx], k)];
    assert h in lists[idx] && InCache(lists, h);
    TakenOnce(lists, idx, k);
    StrangersFewer(lists[idx], owner, t, k);
    forall x: Addr
      ensures InCache(lists', x) <==> InCache(lists, x) && x != h
    {
      if InCache(lists, x) && x != h {
        var i :| 0 <= i < |lists| && x in lists[i];
        assert x in lists'[i];
      }
      if InCache(lists', x) {
        var i :| 0 <= i < |lists'| && x in lists'[i];
        assert x in lists[i];
      }
    }
  }

  lemma TakenOnce(lists: seq<seq<Addr>>, idx: nat, k: nat)
    requires OncePerCache(lists) && idx < |lists| && k < |lists[idx]|
    ensures var lists' := lists[idx := C.Without(lists[idx], k)];
            && OncePerCache(lists')
            && (forall x: Addr :: x in lists'[idx] <==> x in lists[idx] && x != lists[idx][k])
            && (forall i :: 0 <= i < |lists| ==> lists[idx][k] !in lists'[i])
  {
    var s, t := lists[idx], C.Without(lists[idx], k);
    var lists' := lists[idx := t];
    assert forall j :: 0 <= j < |t| ==> t[j] == s[if j < k then j else j + 1];
    forall x: Addr
      ensures x in t <==> x in s && x != s[k]
    {
      if x in s && x != s[k] {
        var j :| 0 <= j < |s| && s[j] == x;
        assert t[if j < k then j else j - 1] == x;
      }
    }
    forall i, j, x | 0 <= i < |lists'| && 0 <= j < |lists'| && i != j && x in lists'[i]
      ensures x !in lists'[j]
    {
      assert x in lists[i] && x !in lists[j];
    }
  }

  // Another thread's cache is not affected when a run enters or leaves this one.
  lemma OtherCache(lists: seq<seq<Addr>>, owner: map<Addr, Thread>, place: map<Addr, Place>, t: Thread, u: Thread,
                   h: Addr, p: Place)
    requires CacheGood(lists, owner, place, u) && u != t && h in place && (p == Cached(t) || p == User(t))
    requires place[h] != Cached(u)
    requires owner.Keys == place.Keys
    ensures CacheGood(lists, owner, place[h := p], u)
  {
    hide CacheGood;
    CacheFrame(lists, owner, place, owner, place[h := p], u);
  }

  lemma CacheInKeeps(m: Machine, t: Thread, h: Addr, idx: nat)
    requires Inv(m) && Enabled(m, CacheIn(t, h, idx))
    ensures HeapsInv(Next(m, CacheIn(t, h, idx))) && CachesInv(Next(m, CacheIn(t, h, idx)))
  {
    hide RunnerOk, RunnersApart, CacheGood;
    var n := Next(m, CacheIn(t, h, idx));
    MoveKeeps(m, h, Cached(t), n.caches);
    forall u
      ensures CacheOk(n, u)
    {
      assert CacheOk(m, u);
      if u == t {
        PushedCache(CacheOf(m, t), m.owner, m.place, t, h, idx);
      } else {
        OtherCache(CacheOf(m, u), m.owner, m.place, t, u, h, Cached(t));
      }
    }
  }

  lemma PopKeeps(m: Machine, t: Thread, idx: nat, k: nat, caches: map<Thread, seq<seq<Addr>>>)
    requires Inv(m) && idx < |CacheOf(m, t)| && k < |CacheOf(m, t)[idx]|
    requires caches == m.caches[t := CacheOf(m, t)[idx := C.Without(CacheOf(m, t)[idx], k)]]
    ensures HeapsInv(m.(place := m.place[CacheOf(m, t)[idx][k] := User(t)], caches := caches))
    ensures CachesInv(m.(place := m.place[CacheOf(m, t)[idx][k] := User(t)], caches := caches))
  {
    hide RunnerOk, RunnersApart, CacheGood;
    var h: Addr := CacheOf(m, t)[idx][k];
    var n := m.(place := m.place[h := User(t)], caches := caches);
    assert CacheOk(m, t);
    TakenCache(CacheOf(m, t), m.owner, m.place, t, idx, k);
    MoveKeeps(m, h, User(t), caches);
    forall u
      ensures CacheOk(n, u)
    {
      assert CacheOk(m, u);
      if u != t {
        OtherCache(CacheOf(m, u), m.owner, m.place, t, u, h, User(t));
      }
    }
  }

  lemma PopOwnKeeps(m: Machine, t: Thread, idx: nat, k: nat)
    requires Inv(m) && Enabled(m, PopOwn(t, idx, k))
    ensures HeapsInv(Next(m, PopOwn(t, idx, k))) && CachesInv(Next(m, PopOwn(t, idx, k)))
  {
    hide Inv, HeapsInv, CachesInv;
    PopKeeps(m, t, idx, k, Next(m, PopOwn(t, idx, k)).caches);
  }

  lemma PopHeadKeeps(m: Machine, t: Thread, idx: nat)
    requires Inv(m) && Enabled(m, PopHead(t, idx))
    ensures HeapsInv(Next(m, PopHead(t, idx))) && CachesInv(Next(m, PopHead(t, idx)))
  {
    hide Inv, HeapsInv, CachesInv;
    var s := CacheOf(m, t)[idx];
    assert C.Without(s, 0) == s[1..];
    PopKeeps(m, t, idx, 0, Next(m, PopHead(t, idx)).caches);
  }

  // ---------- the other steps ----------

  lemma PlainStepKeeps(m: Machine, step: Step)
    requires Inv(m) && Enabled(m, step)
    requires step.CreateState? || step.AddChunk? || step.Expand? || step.HandOver? || step.BeginPush? ||
             step.FinishPush?
    ensures CachesInv(Next(m, step))
  {
    hide RunnerOk, RunnersApart, CachesInv, Stretch, WithChunk, LegalRunSize, NextFree, ChunkOk;
    NoCacheMove(m, Next(m, step));
  }

  lemma AllocateKeepsCaches(m: Machine, t: Thread, h: Addr, needed: nat)
    requires Inv(m) && Enabled(m, Allocate(t, h, needed))
    ensures CachesInv(Next(m, Allocate(t, h, needed)))
  {
    FreeUnowned(m, t, h);
    hide RunnerOk, RunnersApart, CachesInv, Carve, LegalRunSize;
    NoCacheMove(m, Next(m, Allocate(t, h, needed)));
  }

  lemma FreedKeepsCaches(m: Machine, n: Machine, h: Addr)
    requires Inv(m) && h in m.place && !m.place[h].Cached? && n.caches == m.caches && n.owner == m.owner - {h}
    requires n.place == m.place - {h}
    ensures CachesInv(n)
  {
    hide RunnerOk, RunnersApart, CachesInv;
    NoCacheMove(m, n);
  }

  lemma ExchangeKeepsCaches(m: Machine, t: Thread)
    requires Inv(m) && Enabled(m, Exchange(t))
    ensures CachesInv(Next(m, Exchange(t)))
  {
    hide RunnersApart, CachesInv, Heap, Live, Distinct;
    assert RunnerOk(m, t);
    NoCacheMove(m, Next(m, Exchange(t)));
  }

  // ---------- runs that stay ----------

  /** The run whose words an operation of the runner may change besides those of free
      runs. */
  function Subject(step: Step): Addr {
    match step
    case Allocate(_, h, _) => h
    case Expand(_, h, _) => h
    case FreeDirect(_, h) => h
    case _ => 0
  }

  predicate OwnOperation(step: Step) {
    step.AddChunk? || step.Allocate? || step.Expand? || step.FreeDirect?
  }

  lemma OwnRunner(m: Machine, t: Thread)
    requires Inv(m) && t in m.runners
    ensures var r := m.runners[t];
            Heap(r.runs, r.chunks) && AllLive(r.runs, r.stack) && AllLive(r.runs, r.batch) && Distinct(r.stack)
  {
    hide Heap, RunnersApart, CachesInv;
    assert RunnerOk(m, t);
    var r := m.runners[t];
    forall h: Addr | h in r.stack || h in r.batch
      ensures h in r.runs && !r.runs[h].free
    {
      assert h in Live(r.runs);
    }
  }

  ghost predicate SameLive(runs: Runs, runs': Runs, h: Addr) {
    h in Live(runs) && h in Live(runs') && Live(runs')[h] == Live(runs)[h]
  }

  // The owner's own operations on other runs.
  lemma OwnerKeepsRun(r: Runner, step: Step, h: Addr)
    requires Heap(r.runs, r.chunks) && h in Live(r.runs)
    requires OwnOperation(step) && !step.AddChunk? ==> Subject(step) != h
    ensures step.Allocate? && step.h in r.runs && r.runs[step.h].free && LegalRunSize(step.needed) &&
            step.needed <= r.runs[step.h].size ==>
              SameLive(r.runs, Carve(r.runs, step.h, step.needed), h)
    ensures step.AddChunk? && ChunkOk(step.c) && (forall d :: d in r.chunks ==> Apart(step.c, d)) ==>
              SameLive(r.runs, WithChunk(r.runs, step.c), h)
    ensures step.Expand? && step.h in r.runs && !r.runs[step.h].free && NextFree(r.runs, step.h)
              && LegalRunSize(step.needed)
              && step.needed <= r.runs[step.h].size + r.runs[step.h + r.runs[step.h].size].size ==>
              SameLive(r.runs, Stretch(r.runs, step.h, step.needed), h)
  {
    hide Heap, Live, Carve, WithChunk, Stretch, LegalRunSize, ChunkOk;
    match step {
      case Allocate(_, g, needed) =>
        if g in r.runs && r.runs[g].free && LegalRunSize(needed) && needed <= r.runs[g].size {
          CarveKeeps(r.runs, r.chunks, g, needed);
          FreeNotLive(r.runs, g);
        }
      case AddChunk(_, c) =>
        if ChunkOk(c) && forall d :: d in r.chunks ==> Apart(c, d) {
          ChunkKeeps(r.runs, r.chunks, c);
        }
      case Expand(_, g, needed) =>
        if g in r.runs && !r.runs[g].free && NextFree(r.runs, g) && LegalRunSize(needed)
           && needed <= r.runs[g].size + r.runs[g + r.runs[g].size].size {
          StretchKeeps(r.runs, r.chunks, g, needed);
        }
      case _ =>
    }
  }

  lemma ReleaseLeavesRun(r: Runner, g: Addr, h: Addr)
    requires Heap(r.runs, r.chunks) && g in r.runs && !r.runs[g].free && h in Live(r.runs) && h != g
    ensures SameLive(r.runs, Release(r.runs, g), h)
  {
    hide Heap, Live, Release;
    ReleaseKeeps(r.runs, r.chunks, g);
  }

  lemma FreeNotLive(runs: Runs, g: Addr)
    requires g in runs && runs[g].free
    ensures g !in Live(runs)
  {
  }

  // The heap that run h belongs to goes on having it.
  lemma HeapKeepsRun(m: Machine, step: Step, o: Thread, h: Addr)
    requires Inv(m) && Enabled(m, step) && o in m.runners && h in Live(m.runners[o].runs)
    requires OwnOperation(step) && !step.AddChunk? ==> Subject(step) != h
    requires step.ReplayOne? ==> m.runners[step.t].batch[0] != h
    ensures o in Next(m, step).runners && SameLive(m.runners[o].runs, Next(m, step).runners[o].runs, h)
  {
    if step.ReplayOne? {
      ReplayKeepsRun(m, step.t, o, h);
    } else if step.FreeDirect? {
      FreeKeepsRun(m, step.t, step.h, o, h);
    } else {
      OtherStepsKeepRun(m, step, o, h);
    }
  }

  lemma ReplayKeepsRun(m: Machine, t: Thread, o: Thread, h: Addr)
    requires Inv(m) && Enabled(m, ReplayOne(t)) && o in m.runners && h in Live(m.runners[o].runs)
    requires m.runners[t].batch[0] != h
    ensures o in Next(m, ReplayOne(t)).runners && SameLive(m.runners[o].runs, Next(m, ReplayOne(t)).runners[o].runs, h)
  {
    hide Inv, Next, Heap, Live, Release, AllLive, Distinct;
    OwnRunner(m, o);
    ReplayedNextIn(m, t);
    ReplayedLive(m, t);
    if t == o {
      ReleaseLeavesRun(m.runners[o], m.runners[o].batch[0], h);
    }
  }

  lemma ReplayedNextIn(m: Machine, t: Thread)
    requires Inv(m) && Enabled(m, ReplayOne(t))
    ensures var r := m.runners[t];
            Next(m, ReplayOne(t)).runners == m.runners[t := r.(runs := Release(r.runs, r.batch[0]),
                  batch := r.batch[1..])]
  {
    ReplayedNext(m, t);
  }

  lemma FreeKeepsRun(m: Machine, t: Thread, g: Addr, o: Thread, h: Addr)
    requires Inv(m) && Enabled(m, FreeDirect(t, g)) && o in m.runners && h in Live(m.runners[o].runs) && g != h
    ensures o in Next(m, FreeDirect(t, g)).runners
    ensures SameLive(m.runners[o].runs, Next(m, FreeDirect(t, g)).runners[o].runs, h)
  {
    hide Inv, Heap, Live, Release, AllLive, Distinct;
    OwnRunner(m, o);
    OwnerRuns(m, g);
    LiveIsRun(m.runners[t].runs, g);
    if t == o {
      ReleaseLeavesRun(m.runners[o], g, h);
    }
  }

  lemma LiveIsRun(runs: Runs, g: Addr)
    ensures g in Live(runs) <==> g in runs && !runs[g].free
  {
  }

  lemma OtherStepsKeepRun(m: Machine, step: Step, o: Thread, h: Addr)
    requires Inv(m) && Enabled(m, step) && o in m.runners && h in Live(m.runners[o].runs)
    requires !step.ReplayOne? && !step.FreeDirect? && (OwnOperation(step) && !step.AddChunk? ==> Subject(step) != h)
    ensures o in Next(m, step).runners && SameLive(m.runners[o].runs, Next(m, step).runners[o].runs, h)
  {
    hide Inv, Heap, Live, Carve, Stretch, WithChunk, LegalRunSize, NextFree, ChunkOk, FirstOwn, HasRoom, AllLive;
    hide Distinct, RunnersApart;
    OwnRunner(m, o);
    OwnerKeepsRun(m.runners[o], step, h);
  }

  lemma OwnerRuns(m: Machine, h: Addr)
    requires Inv(m) && h in m.owner
    ensures m.owner[h] in m.runners && h in Live(m.runners[m.owner[h]].runs)
  {
    hide CachesInv, RunnersApart, Heap, Live, Distinct;
    assert RunnerOk(m, m.owner[h]);
  }

  lemma ReplayedLive(m: Machine, t: Thread)
    requires Inv(m) && Enabled(m, ReplayOne(t))
    ensures var r := m.runners[t]; r.batch[0] in r.runs && !r.runs[r.batch[0]].free
  {
    hide Inv, Heap, Distinct;
    OwnRunner(m, t);
    var r := m.runners[t];
    var h: Addr := r.batch[0];
    assert h in r.batch;
  }

  // An entry of a class was there before, unless it just came in.
  lemma EntriesBefore(m: Machine, step: Step, u: Thread, i: nat, h: Addr)
    requires Enabled(m, step) && i < |CacheOf(Next(m, step), u)| && h in CacheOf(Next(m, step), u)[i]
    ensures (i < |CacheOf(m, u)| && h in CacheOf(m, u)[i]) || step == CacheIn(u, h, i)
  {
    if step.PopOwn? {
      WithoutIn(CacheOf(m, step.t)[step.idx], step.k);
    } else if step.PopHead? {
      WithoutIn(CacheOf(m, step.t)[step.idx], 0);
      assert C.Without(CacheOf(m, step.t)[step.idx], 0) == CacheOf(m, step.t)[step.idx][1..];
    }
    hide Carve, Stretch, Release, WithChunk, LegalRunSize, NextFree, ChunkOk, FirstOwn, HasRoom, Fits;
  }

  lemma WithoutIn(s: seq<Addr>, k: nat)
    requires k < |s|
    ensures forall x: Addr :: x in C.Without(s, k) ==> x in s
  {
  }

  // A cached run is none that the step works on.
  lemma CachedIsNoSubject(m: Machine, step: Step, u: Thread, h: Addr)
    requires Inv(m) && Enabled(m, step) && h in m.place && m.place[h] == Cached(u)
    ensures OwnOperation(step) && !step.AddChunk? ==> Subject(step) != h
    ensures step.ReplayOne? ==> m.runners[step.t].batch[0] != h
  {
    if step.Allocate? {
      FreeUnowned(m, step.t, step.h);
    } else if step.ReplayOne? {
      ReplayedNext(m, step.t);
    }
    hide Inv, Release, Next;
  }

  /** The runs in the caches keep owner and size. */
  lemma CachedRunFits(m: Machine, step: Step, u: Thread, h: Addr, i: nat)
    requires Inv(m) && Enabled(m, step) && h in m.place && m.place[h] == Cached(u) && Fits(m, h, i)
    ensures Fits(Next(m, step), h, i)
  {
    hide Inv, Enabled, Next, Live;
    CachedIsNoSubject(m, step, u, h);
    StepConserves(m, step, h);
    NotReturned(m, step, h, u);
    var o := m.owner[h];
    OwnerRuns(m, h);
    HeapKeepsRun(m, step, o, h);
    LiveSizes(m.runners[o].runs, h);
    LiveSizes(Next(m, step).runners[o].runs, h);
  }

  lemma LiveSizes(runs: Runs, h: Addr)
    requires h in Live(runs)
    ensures h in runs && Live(runs)[h] == runs[h].size
  {
  }

  lemma NotReturned(m: Machine, step: Step, h: Addr, u: Thread)
    requires Inv(m) && Enabled(m, step) && h in m.place && m.place[h] == Cached(u) && h in m.owner
    ensures h in Next(m, step).owner
  {
    CachedIsNoSubject(m, step, u, h);
    StepConserves(m, step, h);
    hide Inv, Next, Carve, Stretch, Release, WithChunk, LegalRunSize, NextFree, ChunkOk, FirstOwn, HasRoom;
  }

  lemma CacheInFits(m: Machine, t: Thread, h: Addr, idx: nat)
    requires Enabled(m, CacheIn(t, h, idx))
    ensures Fits(Next(m, CacheIn(t, h, idx)), h, idx)
  {
    hide HasRoom;
  }

  lemma CachedFits(m: Machine, t: Thread, i: nat, h: Addr)
    requires Inv(m) && i < |CacheOf(m, t)| && h in CacheOf(m, t)[i]
    ensures Fits(m, h, i) && h in m.place && m.place[h] == Cached(t)
  {
    hide HeapsInv, Fits;
    assert CacheFits(m, t) && InCache(CacheOf(m, t), h);
    ListedOwned(m, t);
  }

  lemma StepFits(m: Machine, step: Step)
    requires Inv(m) && Enabled(m, step)
    ensures FitInv(Next(m, step))
  {
    hide Inv, Enabled, Next, Fits, CacheOf;
    var n := Next(m, step);
    forall u, i, h: Addr | 0 <= i < |CacheOf(n, u)| && h in CacheOf(n, u)[i]
      ensures Fits(n, h, i)
    {
      EntriesBefore(m, step, u, i, h);
      if step == CacheIn(u, h, i) {
        CacheInFits(m, u, h, i);
      } else {
        CachedFits(m, u, i, h);
        CachedRunFits(m, step, u, h, i);
      }
    }
  }

  /** What a class hands out serves every request of the class: it is an allocated run of
      the thread's own heap, and its payload holds any count that falls in the class. */
  lemma PopServes(m: Machine, t: Thread, idx: nat, k: nat, bytes: nat)
    requires Inv(m) && Enabled(m, PopOwn(t, idx, k)) && 0 < bytes && C.ClassIndex(bytes) == idx
    ensures var h := CacheOf(m, t)[idx][k];
            && Owns(m, t, h) && !m.runners[t].runs[h].free && Has(Next(m, PopOwn(t, idx, k)), t, h)
            && bytes <= C.ClassBytes(idx) <= m.runners[t].runs[h].size - HEADER_SIZE
  {
    var h: Addr := CacheOf(m, t)[idx][k];
    CachedFits(m, t, idx, h);
    OwnerRuns(m, h);
    hide Inv, Live;
    LiveIsRun(m.runners[t].runs, h);
  }

  /** Every step of every thread keeps the invariant. */
  lemma StepKeeps(m: Machine, step: Step)
    requires Inv(m) && Enabled(m, step)
    ensures Inv(Next(m, step))
  {
    StepFits(m, step);
    hide FitInv;
    match step {
      case CreateState(t) => CreateKeeps(m, t); PlainStepKeeps(m, step);
      case AddChunk(t, c) => AddChunkKeeps(m, t, c); PlainStepKeeps(m, step);
      case Allocate(t, h, needed) => AllocateKeeps(m, t, h, needed); AllocateKeepsCaches(m, t, h, needed);
      case Expand(t, h, needed) => ExpandKeeps(m, t, h, needed); PlainStepKeeps(m, step);
      case HandOver(t, h, u) => MoveKeeps(m, h, User(u), m.caches); PlainStepKeeps(m, step);
      case CacheIn(t, h, idx) => CacheInKeeps(m, t, h, idx);
      case PopOwn(t, idx, k) => PopOwnKeeps(m, t, idx, k);
      case PopHead(t, idx) => PopHeadKeeps(m, t, idx);
      case FreeDirect(t, h) => FreedKeeps(m, t, h); FreedKeepsCaches(m, Next(m, step), h);
      case BeginPush(t, h) => MoveKeeps(m, h, Pushing(t), m.caches); PlainStepKeeps(m, step);
      case FinishPush(t, h) => FinishPushKeeps(m, t, h); PlainStepKeeps(m, step);
      case Exchange(t) => ExchangeKeeps(m, t); ExchangeKeepsCaches(m, t);
      case ReplayOne(t) => ReplayKeeps(m, t); ReplayKeepsCaches(m, t);
    }
  }

  lemma ReplayKeepsCaches(m: Machine, t: Thread)
    requires Inv(m) && Enabled(m, ReplayOne(t))
    ensures CachesInv(Next(m, ReplayOne(t)))
  {
    ReplayedNext(m, t);
    hide Inv, Enabled, Next, Release;
    FreedKeepsCaches(m, Next(m, ReplayOne(t)), m.runners[t].batch[0]);
  }

  ghost predicate Reaches(m: Machine, steps: seq<Step>, end: Machine)
    decreases |steps|
  {
    if steps == [] then m == end else Enabled(m, steps[0]) && Reaches(Next(m, steps[0]), steps[1..], end)
  }

  lemma {:induction false} RunKeeps(m: Machine, steps: seq<Step>, end: Machine)
    requires Inv(m) && Reaches(m, steps, end)
    ensures Inv(end)
    decreases |steps|
  {
    hide Inv, Enabled, Next;
    if steps == [] {
    } else {
      StepKeeps(m, steps[0]);
      RunKeeps(Next(m, steps[0]), steps[1..], end);
    }
  }

  // ---------- what holds of every run of the system ----------

  /** A live run: one thread owns it, it is an allocated run of that thread's heap
      and of no other, its bytes meet no other run of any thread; it is on that
      thread's remote stack, in its batch, in one class list of one cache or on no
      list at all, and its place says which. */
  ghost predicate LiveRunSafe(m: Machine, h: Addr)
    requires h in m.owner
  {
    var t := m.owner[h];
    && Owns(m, t, h) && !m.runners[t].runs[h].free && h in m.place
    && (forall u :: u in m.runners && h in m.runners[u].runs ==> u == t)
    && (forall u, g :: u in m.runners && g in m.runners[u].runs && h < g ==> h + m.runners[t].runs[h].size <= g)
    && (forall u, g :: u in m.runners && g in m.runners[u].runs && g < h ==> g + m.runners[u].runs[g].size <= h)
    && (forall u :: u in m.runners && (h in m.runners[u].stack || h in m.runners[u].batch) ==> u == t)
    && (h in m.runners[t].stack <==> m.place[h] == Parked)
    && (h in m.runners[t].batch <==> m.place[h] == Replaying)
    && (forall u :: InCache(CacheOf(m, u), h) <==> m.place[h] == Cached(u))
  }

  lemma OnListOfOwner(m: Machine, u: Thread, h: Addr)
    requires Inv(m) && u in m.runners && h in m.owner && h in m.place
    ensures h in m.runners[u].stack <==> m.owner[h] == u && m.place[h] == Parked
    ensures h in m.runners[u].batch <==> m.owner[h] == u && m.place[h] == Replaying
    ensures m.owner[h] == u ==> h in Live(m.runners[u].runs)
  {
    hide Heap, Live, Distinct, RunnersApart;
    assert RunnerOk(m, u);
  }

  lemma CachedIsListed(m: Machine, u: Thread, h: Addr)
    requires Inv(m) && h in m.place
    ensures InCache(CacheOf(m, u), h) <==> m.place[h] == Cached(u)
    ensures OncePerCache(CacheOf(m, u))
  {
    hide HeapsInv, OncePerCache, Bounded, InCache;
    assert CacheOk(m, u);
  }

  lemma LiveRunsSafe(m: Machine, h: Addr)
    requires Inv(m) && h in m.owner
    ensures LiveRunSafe(m, h)
  {
    var t := m.owner[h];
    OnListOfOwner(m, t, h);
    assert h in m.runners[t].runs;
    forall u
      ensures InCache(CacheOf(m, u), h) <==> m.place[h] == Cached(u)
    {
      CachedIsListed(m, u, h);
    }
    hide Inv, Heap, RunnersApart, Live;
    forall u | u in m.runners
      ensures h in m.runners[u].runs ==> u == t
      ensures h in m.runners[u].stack || h in m.runners[u].batch ==> u == t
    {
      OnListOfOwner(m, u, h);
      if h in m.runners[u].runs {
        OneHeap(m, t, u, h);
      }
    }
    forall u, g: Addr | u in m.runners && g in m.runners[u].runs
      ensures h < g ==> h + m.runners[t].runs[h].size <= g
      ensures g < h ==> g + m.runners[u].runs[g].size <= h
    {
      if h < g {
        RunsNeverMeet(m, t, h, u, g);
      } else if g < h {
        RunsNeverMeet(m, u, g, t, h);
      }
    }
  }

  /** Safety of the whole system: after any steps of any threads, every heap is well
      formed, no cache holds a run twice, and every live run is safe. */
  lemma SystemSafety(m: Machine, steps: seq<Step>, end: Machine)
    requires Init(m) && Reaches(m, steps, end)
    ensures forall t :: t in end.runners ==> Heap(end.runners[t].runs, end.runners[t].chunks)
    ensures forall t :: OncePerCache(CacheOf(end, t))
    ensures forall t, i, h :: 0 <= i < |CacheOf(end, t)| && h in CacheOf(end, t)[i] ==> Fits(end, h, i)
    ensures forall h :: h in end.owner ==> LiveRunSafe(end, h)
  {
    InitInv(m);
    hide Heap, LiveRunSafe, RunnersApart;
    RunKeeps(m, steps, end);
    forall t | t in end.runners
      ensures Heap(end.runners[t].runs, end.runners[t].chunks)
    {
      assert RunnerOk(end, t);
    }
    forall t
      ensures OncePerCache(CacheOf(end, t))
    {
      assert CacheOk(end, t);
    }
    forall t, i, h | 0 <= i < |CacheOf(end, t)| && h in CacheOf(end, t)[i]
      ensures Fits(end, h, i)
    {
      CachedFits(end, t, i, h);
    }
    forall h | h in end.owner
      ensures LiveRunSafe(end, h)
    {
      LiveRunsSafe(end, h);
    }
  }

  /** What a thread finds in its cache is what it left there, whatever the others do
      meanwhile: every entry is still allocated and still has the same owner. */
  lemma {:induction false} CacheIsPrivate(m: Machine, steps: seq<Step>, end: Machine, t: Thread)
    requires Inv(m) && Reaches(m, steps, end) && forall s :: s in steps ==> Actor(s) != t
    ensures CacheOf(end, t) == CacheOf(m, t)
    ensures forall h :: InCache(CacheOf(m, t), h) ==>
              h in m.owner && h in end.owner && end.owner[h] == m.owner[h] && h in end.place &&
                  end.place[h] == Cached(t)
    decreases |steps|
  {
    hide Inv, Enabled, Next, Actor, InCache;
    if steps == [] {
      ListedOwned(m, t);
    } else {
      var n := Next(m, steps[0]);
      assert steps[0] in steps;
      assert forall s :: s in steps[1..] ==> s in steps;
      StepKeeps(m, steps[0]);
      OthersLeaveCache(m, steps[0], t);
      CacheIsPrivate(n, steps[1..], end, t);
      ListedOwned(m, t);
      forall h: Addr | InCache(CacheOf(m, t), h)
        ensures h in m.owner && h in end.owner && end.owner[h] == m.owner[h] && h in end.place
        ensures end.place[h] == Cached(t)
      {
        assert InCache(CacheOf(n, t), h);
        StepConserves(m, steps[0], h);
      }
    }
  }

  lemma OthersLeaveCache(m: Machine, step: Step, t: Thread)
    requires Enabled(m, step) && Actor(step) != t
    ensures CacheOf(Next(m, step), t) == CacheOf(m, t)
  {
    hide Carve, Stretch, Release, WithChunk, LegalRunSize, NextFree, ChunkOk, FirstOwn;
  }

  lemma ListedOwned(m: Machine, t: Thread)
    requires Inv(m)
    ensures forall h: Addr :: InCache(CacheOf(m, t), h) ==> h in m.owner && h in m.place && m.place[h] == Cached(t)
  {
    hide OncePerCache, Bounded, InCache, RunnerOk, RunnersApart;
    assert CacheOk(m, t);
  }

  // ---------- conservation ----------

  /** The run that a step allocates or frees, if it does. */
  function Taken(m: Machine, step: Step): Option<Addr> {
    match step
    case Allocate(_, h, _) => Some(h)
    case _ => None
  }

  ghost function Returned(m: Machine, step: Step): Option<Addr>
    requires Enabled(m, step)
  {
    match step
    case FreeDirect(_, h) => Some(h)
    case ReplayOne(t) => Some(m.runners[t].batch[0])
    case _ => None
  }

  /** Live runs come from allocation and go by freeing; no step loses, invents,
      frees twice or re-owns one. */
  lemma StepConserves(m: Machine, step: Step, h: Addr)
    requires Inv(m) && Enabled(m, step)
    ensures Taken(m, step) == Some(h) ==> h !in m.owner && h in Next(m, step).owner
    ensures Returned(m, step) == Some(h) ==> h in m.owner && h !in Next(m, step).owner
    ensures Taken(m, step) != Some(h) && Returned(m, step) != Some(h) ==> (h in Next(m, step).owner <==> h in m.owner)
    ensures h in m.owner && h in Next(m, step).owner ==> Next(m, step).owner[h] == m.owner[h]
  {
    if step.Allocate? {
      FreeUnowned(m, step.t, step.h);
    } else if step.ReplayOne? {
      hide Release, Live, Heap;
      ReplayKeeps(m, step.t);
    }
    hide Inv, Heap, Live, Carve, Stretch, Release, WithChunk, LegalRunSize, NextFree, ChunkOk;
  }

  /** Thread u takes run h out of a class. */
  ghost predicate TakesOut(m: Machine, step: Step, u: Thread, h: Addr)
    requires Enabled(m, step)
  {
    match step
    case PopOwn(t, idx, k) => t == u && CacheOf(m, t)[idx][k] == h
    case PopHead(t, idx) => t == u && CacheOf(m, t)[idx][0] == h
    case _ => false
  }

  // The step takes run h from the user who has it.
  predicate LeavesUser(step: Step, h: Addr) {
    (step.HandOver? || step.CacheIn? || step.FreeDirect? || step.BeginPush?) && step.h == h
  }

  lemma EntryPlace(m: Machine, t: Thread, idx: nat, k: nat)
    requires CachesInv(m) && idx < |CacheOf(m, t)| && k < |CacheOf(m, t)[idx]|
    ensures CacheOf(m, t)[idx][k] in m.place && m.place[CacheOf(m, t)[idx][k]] == Cached(t)
  {
    assert CacheOk(m, t);
    hide Bounded, OncePerCache;
    assert InCache(CacheOf(m, t), CacheOf(m, t)[idx][k]);
  }

  /** The life of a run: with one user after another, in a cache, being pushed, parked,
      replayed. Each change of place is made by the one step whose business it is, and
      whoever acts, no other run moves. */
  lemma Lifecycle(m: Machine, step: Step, h: Addr, u: Thread)
    requires Inv(m) && Enabled(m, step) && h in m.place && h in m.owner
    ensures var p, n := m.place[h], Next(m, step).place;
            && (h !in n <==> Returned(m, step) == Some(h))
            && (h in n ==>
                  && (n[h] == User(u) <==>
                        || (step.HandOver? && step.h == h && step.u == u) || TakesOut(m, step, u, h)
                        || (p == User(u) && !LeavesUser(step, h)))
                  && (n[h] == Cached(u) <==>
                        (step.CacheIn? && step.t == u && step.h == h) || (p == Cached(u) && !TakesOut(m, step, u, h)))
                  && (n[h] == Pushing(u) <==> step == BeginPush(u, h) || (p == Pushing(u) && step != FinishPush(u, h)))
                  && (n[h] == Parked <==>
                        (step.FinishPush? && step.h == h) || (p == Parked && step != Exchange(m.owner[h])))
                  && (n[h] == Replaying <==> p == Replaying || (p == Parked && step == Exchange(m.owner[h]))))
  {
    if step.Allocate? {
      FreeUnowned(m, step.t, step.h);
    } else if step.ReplayOne? {
      ReplayKeeps(m, step.t);
    } else if step.Exchange? {
      assert RunnerOk(m, step.t);
    } else if step.PopOwn? || step.PopHead? {
      EntryPlace(m, step.t, step.idx, if step.PopOwn? then step.k else 0);
    }
    hide Inv, Heap, Live, Carve, Stretch, Release, WithChunk, LegalRunSize, NextFree, ChunkOk;
  }

  /** The cache is a stack: what goes in comes out first, and nothing else has changed. */
  lemma LastInFirstOut(m: Machine, t: Thread, h: Addr, idx: nat)
    requires Inv(m) && Enabled(m, CacheIn(t, h, idx))
    ensures var n := Next(m, CacheIn(t, h, idx));
            && Enabled(n, PopHead(t, idx)) && TakesOut(n, PopHead(t, idx), t, h)
            && (m.owner[h] == t ==> Enabled(n, PopOwn(t, idx, 0)) && TakesOut(n, PopOwn(t, idx, 0), t, h))
            && var b := Next(n, PopHead(t, idx));
               && b.place == m.place && b.owner == m.owner && b.runners == m.runners && CacheOf(b, t) == CacheOf(m, t)
  {
    var lists := CacheOf(m, t);
    assert ([h] + lists[idx])[1..] == lists[idx];
    hide Inv, Fits;
  }

  ghost function TimesTaken(m: Machine, steps: seq<Step>, end: Machine, h: Addr): nat
    requires Reaches(m, steps, end)
    decreases |steps|
  {
    if steps == [] then 0
    else (if Taken(m, steps[0]) == Some(h) then 1 else 0) + TimesTaken(Next(m, steps[0]), steps[1..], end, h)
  }

  ghost function TimesReturned(m: Machine, steps: seq<Step>, end: Machine, h: Addr): nat
    requires Reaches(m, steps, end)
    decreases |steps|
  {
    if steps == [] then 0
    else (if Returned(m, steps[0]) == Some(h) then 1 else 0) + TimesReturned(Next(m, steps[0]), steps[1..], end, h)
  }

  /** Over every run of the system: each address has been allocated once more often
      than freed if it is live at the end, and exactly as often if it is not. */
  lemma {:induction false} RunConserves(m: Machine, steps: seq<Step>, end: Machine, h: Addr)
    requires Inv(m) && Reaches(m, steps, end)
    ensures (if h in m.owner then 1 else 0) + TimesTaken(m, steps, end, h)
         == (if h in end.owner then 1 else 0) + TimesReturned(m, steps, end, h)
    decreases |steps|
  {
    hide Inv, Enabled, Next;
    if steps == [] {
    } else {
      StepKeeps(m, steps[0]);
      StepConserves(m, steps[0], h);
      hide Taken, Returned;
      RunConserves(Next(m, steps[0]), steps[1..], end, h);
    }
  }

  /** Each chunk is one free run that reaches from its begin to its epilogue. */
  ghost predicate Pristine(runs: Runs, chunks: set<Chunk>) {
    && (forall c :: c in chunks ==> c.begin in runs)
    && (forall h :: h in runs ==>
          var r := runs[h];
          r.home in chunks && h == r.home.begin && r.free && r.back == 0 && r.size + EPILOGUE_SIZE == r.home.bytes)
  }

  lemma FirstIsMember(s: seq<Addr>)
    ensures s != [] ==> s[0] in s
  {
  }

  lemma Memberless(s: seq<Addr>)
    requires forall h: Addr :: h !in s
    ensures s == []
  {
    FirstIsMember(s);
    var h: Addr := if s == [] then 0 else s[0];
    assert s != [] ==> h in s;
  }

  /** With nothing live, parked, cached or in flight, the heap of a thread is back to
      one free run per chunk. */
  lemma QuietHeapIsPristine(m: Machine, t: Thread)
    requires Inv(m) && t in m.runners && forall h :: h in m.owner ==> m.owner[h] != t
    ensures var r := m.runners[t];
            r.stack == [] && r.batch == [] && Pristine(r.runs, r.chunks)
  {
    hide Heap, RunnersApart;
    var r := m.runners[t];
    assert RunnerOk(m, t);
    assert forall h: Addr :: h !in r.stack && h !in r.batch && h !in Live(r.runs);
    Memberless(r.stack);
    Memberless(r.batch);
    EmptyHeapIsOneRunPerChunk(r.runs, r.chunks);
  }

  // ---------- draining a remote stack ----------

  function Replays(t: Thread, n: nat): seq<Step> {
    if n == 0 then [] else [ReplayOne(t)] + Replays(t, n - 1)
  }

  /** What thread t's heap, owners and places are once its whole batch is freed. */
  ghost predicate Drained(m: Machine, t: Thread, end: Machine)
    requires t in m.runners
  {
    var r := m.runners[t];
    && end.runners == m.runners[t := r.(runs := ReleaseAll(r.runs, r.batch), batch := [])]
    && end.owner == m.owner - Elements(r.batch) && end.place == m.place - Elements(r.batch)
    && end.caches == m.caches
  }

  /** The walk over a batch always can take its next step, ends, and has then freed
      exactly the batch. */
  lemma {:induction false} BatchDrains(m: Machine, t: Thread)
    requires Inv(m) && t in m.runners
    ensures exists end :: Reaches(m, Replays(t, |m.runners[t].batch|), end) && Drained(m, t, end)
    decreases if t in m.runners then |m.runners[t].batch| else 0
  {
    hide Inv, Release, Reaches, Heap;
    var r := m.runners[t];
    if r.batch == [] {
      assert Elements(r.batch) == {};
      assert m.runners == m.runners[t := r.(runs := ReleaseAll(r.runs, r.batch), batch := [])];
      NoSteps(m);
      assert Reaches(m, Replays(t, |m.runners[t].batch|), m) && Drained(m, t, m);
    } else {
      BatchHead(m, t);
      var step := ReplayOne(t);
      ReplayStep(m, t);
      var n := Next(m, step);
      BatchDrains(n, t);
      var end :| Reaches(n, Replays(t, |n.runners[t].batch|), end) && Drained(n, t, end);
      OneMore(m, step, Replays(t, |n.runners[t].batch|), end);
      assert Elements(r.batch) == {r.batch[0]} + Elements(r.batch[1..]);
      assert Drained(m, t, end);
    }
  }

  lemma ReplayStep(m: Machine, t: Thread)
    requires Inv(m) && Enabled(m, ReplayOne(t))
    ensures Inv(Next(m, ReplayOne(t)))
    ensures var r := m.runners[t];
            var h := r.batch[0];
            Next(m, ReplayOne(t)) ==
              Machine(m.runners[t := r.(runs := Release(r.runs, h), batch := r.batch[1..])], m.owner - {h},
                  m.place - {h}, m.caches)
  {
    StepKeeps(m, ReplayOne(t));
    ReplayedNext(m, t);
  }

  lemma BatchHead(m: Machine, t: Thread)
    requires Inv(m) && t in m.runners && m.runners[t].batch != []
    ensures m.runners[t].batch[0] in m.runners[t].runs
  {
    hide Heap, RunnersApart;
    assert RunnerOk(m, t);
    var h: Addr := m.runners[t].batch[0];
    assert h in m.runners[t].batch && h in Live(m.runners[t].runs);
  }

  lemma NoSteps(m: Machine)
    ensures Reaches(m, [], m)
  {
  }

  lemma OneMore(m: Machine, step: Step, rest: seq<Step>, end: Machine)
    requires Enabled(m, step) && Reaches(Next(m, step), rest, end)
    ensures Reaches(m, [step] + rest, end)
  {
    hide Enabled, Next;
    assert ([step] + rest)[1..] == rest;
  }

  lemma {:induction false} Onwards(m: Machine, a: seq<Step>, n: Machine, b: seq<Step>, end: Machine)
    requires Reaches(m, a, n) && Reaches(n, b, end)
    ensures Reaches(m, a + b, end)
    decreases |a|
  {
    hide Enabled, Next;
    if a == [] {
      assert a + b == b;
    } else {
      Onwards(Next(m, a[0]), a[1..], n, b, end);
      assert (a + b)[0] == a[0] && (a + b)[1..] == a[1..] + b;
    }
  }

  // ---------- draining a cache ----------

  /** What a drain does with the first entry of a class: it is popped, and freed if it
      is the thread's own, pushed on its owner's stack if it is not. */
  function HomeSteps(owner: map<Addr, Thread>, t: Thread, idx: nat, h: Addr): seq<Step> {
    if h in owner && owner[h] == t then [PopHead(t, idx), FreeDirect(t, h)]
    else [PopHead(t, idx), BeginPush(t, h), FinishPush(t, h)]
  }

  function DrainSteps(owner: map<Addr, Thread>, t: Thread, idx: nat, entries: seq<Addr>): seq<Step> {
    if entries == [] then [] else HomeSteps(owner, t, idx, entries[0]) + DrainSteps(owner, t, idx, entries[1..])
  }

  /** Thread exit drains one class after the other. */
  function ExitSteps(owner: map<Addr, Thread>, t: Thread, lists: seq<seq<Addr>>, idx: nat): seq<Step>
    decreases |lists| - idx
  {
    if idx >= |lists| then [] else DrainSteps(owner, t, idx, lists[idx]) + ExitSteps(owner, t, lists, idx + 1)
  }

  /** These runs went home: the thread's own are no longer allocated, the others wait
      on their owners' stacks; no other run moved. */
  ghost predicate WentHome(m: Machine, end: Machine, t: Thread, gone: set<Addr>) {
    && (forall h :: h in gone && h in m.owner && m.owner[h] == t ==> h !in end.owner)
    && (forall h :: h in gone && h in m.owner && m.owner[h] != t ==>
          h in end.owner && end.owner[h] == m.owner[h] && h in end.place && end.place[h] == Parked)
    && (forall h :: h in m.owner && h !in gone ==> h in end.owner && end.owner[h] == m.owner[h])
    && (forall h :: h in m.place && h !in gone ==> h in end.place && end.place[h] == m.place[h])
    && (forall h :: h in end.owner ==> h in m.owner)
  }

  /** The owner words say so already of each of these runs. */
  ghost predicate Agrees(owner: map<Addr, Thread>, m: Machine, s: seq<Addr>) {
    forall h: Addr :: h in s ==> h in owner && h in m.owner && owner[h] == m.owner[h]
  }

  lemma FirstPopped(m: Machine, t: Thread, idx: nat) returns (n: Machine)
    requires Inv(m) && Idle(m, t) && idx < |CacheOf(m, t)| && CacheOf(m, t)[idx] != []
    ensures var h := CacheOf(m, t)[idx][0];
            && h in m.owner && h in m.place && m.place[h] == Cached(t)
            && Owns(m, m.owner[h], h)
            && n == m.(place := m.place[h := User(t)],
                   caches := m.caches[t := CacheOf(m, t)[idx := CacheOf(m, t)[idx][1..]]])
            && Reaches(m, [PopHead(t, idx)], n)
    ensures Inv(n) && Idle(n, t)
  {
    var h: Addr := CacheOf(m, t)[idx][0];
    assert h in CacheOf(m, t)[idx] && InCache(CacheOf(m, t), h);
    ListedOwned(m, t);
    OnListOfOwner(m, m.owner[h], h);
    n := Next(m, PopHead(t, idx));
    StepKeeps(m, PopHead(t, idx));
    NoSteps(n);
    OneMore(m, PopHead(t, idx), [], n);
    assert [PopHead(t, idx)] + [] == [PopHead(t, idx)];
    hide Inv, Heap, Live, InCache;
    assert Idle(n, t);
  }

  lemma OwnFreed(m: Machine, t: Thread, h: Addr) returns (n: Machine)
    requires Inv(m) && Idle(m, t) && Has(m, t, h) && Owns(m, t, h)
    ensures Reaches(m, [FreeDirect(t, h)], n) && Inv(n) && Idle(n, t)
    ensures n.caches == m.caches && n.owner == m.owner - {h} && n.place == m.place - {h}
  {
    n := Freed(m, t, h);
    StepKeeps(m, FreeDirect(t, h));
    NoSteps(n);
    OneMore(m, FreeDirect(t, h), [], n);
    assert [FreeDirect(t, h)] + [] == [FreeDirect(t, h)];
    hide Inv, Release, Heap, Live;
  }

  lemma ForeignPushed(m: Machine, t: Thread, h: Addr) returns (n: Machine)
    requires Inv(m) && Idle(m, t) && Has(m, t, h) && h in m.owner && m.owner[h] != t && Owns(m, m.owner[h], h)
    ensures Reaches(m, [BeginPush(t, h), FinishPush(t, h)], n) && Inv(n) && Idle(n, t)
    ensures n.caches == m.caches && n.owner == m.owner && n.place == m.place[h := Parked]
  {
    hide Inv, Heap, Live, HasRoom, FirstOwn;
    var begin, finish := BeginPush(t, h), FinishPush(t, h);
    var mid := m.(place := m.place[h := Pushing(t)]);
    assert mid == Next(m, begin);
    StepKeeps(m, begin);
    n := Next(mid, finish);
    StepKeeps(mid, finish);
    NoSteps(n);
    OneMore(mid, finish, [], n);
    OneMore(m, begin, [finish], n);
    assert [finish] + [] == [finish] && [begin] + [finish] == [begin, finish];
  }

  /** The first entry of a class can always go home. */
  lemma FirstGoesHome(m: Machine, t: Thread, idx: nat) returns (n: Machine)
    requires Inv(m) && Idle(m, t) && idx < |CacheOf(m, t)| && CacheOf(m, t)[idx] != []
    ensures var h := CacheOf(m, t)[idx][0];
            Reaches(m, HomeSteps(m.owner, t, idx, h), n) && WentHome(m, n, t, {h})
    ensures Inv(n) && Idle(n, t) && CacheOf(n, t) == CacheOf(m, t)[idx := CacheOf(m, t)[idx][1..]]
  {
    hide Inv, Idle, Reaches;
    var h: Addr := CacheOf(m, t)[idx][0];
    var mid := FirstPopped(m, t, idx);
    if m.owner[h] == t {
      n := OwnFreed(mid, t, h);
      Onwards(m, [PopHead(t, idx)], mid, [FreeDirect(t, h)], n);
      assert [PopHead(t, idx)] + [FreeDirect(t, h)] == HomeSteps(m.owner, t, idx, h);
    } else {
      n := ForeignPushed(mid, t, h);
      Onwards(m, [PopHead(t, idx)], mid, [BeginPush(t, h), FinishPush(t, h)], n);
      assert [PopHead(t, idx)] + [BeginPush(t, h), FinishPush(t, h)] == HomeSteps(m.owner, t, idx, h);
    }
    assert WentHome(m, n, t, {h});
  }

  lemma BothWentHome(m: Machine, n: Machine, end: Machine, t: Thread, a: set<Addr>, b: set<Addr>)
    requires WentHome(m, n, t, a) && WentHome(n, end, t, b) && a !! b
    ensures WentHome(m, end, t, a + b)
  {
  }

  lemma NothingWent(m: Machine, t: Thread)
    ensures WentHome(m, m, t, {})
  {
  }

  // Runs that stay put keep their owner words.
  lemma StillAgrees(owner: map<Addr, Thread>, m: Machine, n: Machine, t: Thread, gone: set<Addr>, s: seq<Addr>)
    requires Agrees(owner, m, s) && WentHome(m, n, t, gone) && forall h :: h in s ==> h !in gone
    ensures Agrees(owner, n, s)
  {
  }

  lemma CacheDistinct(m: Machine, t: Thread, idx: nat)
    requires Inv(m) && idx < |CacheOf(m, t)|
    ensures OncePerCache(CacheOf(m, t)) && Distinct(CacheOf(m, t)[idx])
  {
    hide HeapsInv, Bounded, InCache;
    assert CacheOk(m, t);
  }

  /** The watermark drain, and one class of a thread exit: it can always go on to its
      end, and then the first n entries of the class, and no others, went home. */
  lemma {:induction false} ClassDrains(m: Machine, t: Thread, idx: nat, count: nat, owner: map<Addr, Thread>)
    requires Inv(m) && Idle(m, t) && idx < |CacheOf(m, t)| && count <= |CacheOf(m, t)[idx]|
    requires Agrees(owner, m, CacheOf(m, t)[idx])
    ensures var s := CacheOf(m, t)[idx];
            exists end ::
              && Reaches(m, DrainSteps(owner, t, idx, s[..count]), end) && Inv(end) && Idle(end, t)
              && WentHome(m, end, t, Elements(s[..count])) && CacheOf(end, t) == CacheOf(m, t)[idx := s[count..]]
    decreases count
  {
    hide Inv, Idle, Reaches, WentHome, CacheOf, OncePerCache;
    var lists := CacheOf(m, t);
    var s := lists[idx];
    if count == 0 {
      NoSteps(m);
      NothingWent(m, t);
      assert Elements(s[..0]) == {} && lists[idx := s[0..]] == lists;
      assert Reaches(m, DrainSteps(owner, t, idx, s[..0]), m) && WentHome(m, m, t, Elements(s[..0]));
    } else {
      var h: Addr := s[0];
      assert h in s;
      CacheDistinct(m, t, idx);
      RestOf(s);
      var n := FirstGoesHome(m, t, idx);
      StillAgrees(owner, m, n, t, {h}, s[1..]);
      ClassDrains(n, t, idx, count - 1, owner);
      var rest := s[1..][..count - 1];
      var end :| Reaches(n, DrainSteps(owner, t, idx, rest), end) && Inv(end) && Idle(end, t)
              && WentHome(n, end, t, Elements(rest)) && CacheOf(end, t) == CacheOf(n, t)[idx := s[1..][count - 1..]];
      assert s[..count] == [h] + rest && s[..count][1..] == rest && s[1..][count - 1..] == s[count..];
      assert HomeSteps(owner, t, idx, h) == HomeSteps(m.owner, t, idx, h);
      Onwards(m, HomeSteps(m.owner, t, idx, h), n, DrainSteps(owner, t, idx, rest), end);
      assert h !in rest;
      assert Elements(s[..count]) == {h} + Elements(rest);
      BothWentHome(m, n, end, t, {h}, Elements(rest));
      assert CacheOf(end, t) == lists[idx := s[count..]];
    }
  }

  /** The entries of the classes from idx on. */
  ghost function EntriesFrom(lists: seq<seq<Addr>>, idx: nat): (r: set<Addr>)
    ensures forall h: Addr {:trigger h in r} :: h in r <==> exists i :: idx <= i < |lists| && h in lists[i]
    decreases |lists| - idx
  {
    if idx >= |lists| then {} else Elements(lists[idx]) + EntriesFrom(lists, idx + 1)
  }

  ghost predicate AllAgree(owner: map<Addr, Thread>, m: Machine, lists: seq<seq<Addr>>, idx: nat) {
    forall i :: idx <= i < |lists| ==> Agrees(owner, m, lists[i])
  }

  lemma {:induction false} ClassesDrain(m: Machine, t: Thread, lists: seq<seq<Addr>>, idx: nat,
                                        owner: map<Addr, Thread>)
    requires Inv(m) && Idle(m, t) && CacheOf(m, t) == lists && idx <= |lists|
    requires AllAgree(owner, m, lists, idx) && forall i :: 0 <= i < idx ==> lists[i] == []
    ensures exists end ::
              && Reaches(m, ExitSteps(owner, t, lists, idx), end) && Inv(end) && Idle(end, t)
              && WentHome(m, end, t, EntriesFrom(lists, idx)) && CacheOf(end, t) == seq(|lists|, i => [])
    decreases |lists| - idx
  {
    hide Inv, Idle, Reaches, WentHome, CacheOf, Agrees, Distinct, DrainSteps, OncePerCache;
    if idx == |lists| {
      NoSteps(m);
      NothingWent(m, t);
      assert lists == seq(|lists|, i => []);
      assert Reaches(m, ExitSteps(owner, t, lists, idx), m) && WentHome(m, m, t, EntriesFrom(lists, idx));
    } else {
      var s := lists[idx];
      CacheDistinct(m, t, idx);
      assert s[..|s|] == s && s[|s|..] == [];
      assert Agrees(owner, m, lists[idx]);
      ClassDrains(m, t, idx, |s|, owner);
      var n :| Reaches(m, DrainSteps(owner, t, idx, s), n) && Inv(n) && Idle(n, t)
              && WentHome(m, n, t, Elements(s)) && CacheOf(n, t) == lists[idx := []];
      var lists' := lists[idx := []];
      LaterAgree(owner, m, n, t, lists, idx);
      ClassesDrain(n, t, lists', idx + 1, owner);
      var end :| Reaches(n, ExitSteps(owner, t, lists', idx + 1), end) && Inv(end) && Idle(end, t)
              && WentHome(n, end, t, EntriesFrom(lists', idx + 1)) && CacheOf(end, t) == seq(|lists|, i => []);
      SameLater(owner, t, lists, lists', idx + 1);
      Onwards(m, DrainSteps(owner, t, idx, s), n, ExitSteps(owner, t, lists, idx + 1), end);
      OthersApart(lists, idx);
      BothWentHome(m, n, end, t, Elements(s), EntriesFrom(lists, idx + 1));
    }
  }

  lemma OthersApart(lists: seq<seq<Addr>>, idx: nat)
    requires OncePerCache(lists) && idx < |lists|
    ensures Elements(lists[idx]) !! EntriesFrom(lists, idx + 1)
  {
    forall h: Addr | h in lists[idx]
      ensures h !in EntriesFrom(lists, idx + 1)
    {
      assert forall i :: idx + 1 <= i < |lists| ==> h !in lists[i];
    }
    assert forall h: Addr :: h in Elements(lists[idx]) ==> h !in EntriesFrom(lists, idx + 1);
  }

  lemma LaterAgree(owner: map<Addr, Thread>, m: Machine, n: Machine, t: Thread, lists: seq<seq<Addr>>, idx: nat)
    requires AllAgree(owner, m, lists, idx) && OncePerCache(lists) && idx < |lists|
    requires WentHome(m, n, t, Elements(lists[idx]))
    ensures AllAgree(owner, n, lists[idx := []], idx + 1)
  {
    hide WentHome, Agrees;
    forall i | idx + 1 <= i < |lists|
      ensures Agrees(owner, n, lists[i])
    {
      assert Agrees(owner, m, lists[i]);
      StillAgrees(owner, m, n, t, Elements(lists[idx]), lists[i]);
    }
  }

  lemma {:induction false} SameLater(owner: map<Addr, Thread>, t: Thread, lists: seq<seq<Addr>>, lists': seq<seq<Addr>>,
                                     idx: nat)
    requires |lists'| == |lists| && forall i :: idx <= i < |lists| ==> lists'[i] == lists[i]
    ensures ExitSteps(owner, t, lists', idx) == ExitSteps(owner, t, lists, idx)
    ensures EntriesFrom(lists', idx) == EntriesFrom(lists, idx)
    decreases |lists| - idx
  {
    if idx >= |lists| {
    } else {
      SameLater(owner, t, lists, lists', idx + 1);
    }
  }

  /** Thread exit conserves every cached run. The destructor's steps are all possible,
      in the order in which they come; afterwards the cache is empty, no run is in it,
      the thread's own runs are freed, the others are on their owners' stacks, and no
      run that was elsewhere moved. */
  lemma ExitSendsHome(m: Machine, t: Thread)
    requires Inv(m) && Idle(m, t)
    ensures exists end ::
              && Reaches(m, ExitSteps(m.owner, t, CacheOf(m, t), 0), end) && Inv(end)
              && CacheOf(end, t) == C.Empties() && (forall h :: h in end.place ==> end.place[h] != Cached(t))
              && WentHome(m, end, t, set h | h in m.place && m.place[h] == Cached(t))
  {
    hide Idle, Reaches, WentHome, HeapsInv, OncePerCache, Bounded;
    var lists := CacheOf(m, t);
    assert CacheOk(m, t);
    ListedOwned(m, t);
    forall i, h: Addr | 0 <= i < |lists| && h in lists[i]
      ensures h in m.owner
    {
      assert InCache(lists, h);
    }
    ClassesDrain(m, t, lists, 0, m.owner);
    var end :| Reaches(m, ExitSteps(m.owner, t, lists, 0), end) && Inv(end) && Idle(end, t)
            && WentHome(m, end, t, EntriesFrom(lists, 0)) && CacheOf(end, t) == seq(|lists|, i => []);
    forall h: Addr
      ensures h in EntriesFrom(lists, 0) <==> h in m.place && m.place[h] == Cached(t)
    {
      assert InCache(lists, h) <==> h in m.place && m.place[h] == Cached(t);
    }
    assert EntriesFrom(lists, 0) == set h | h in m.place && m.place[h] == Cached(t);
    assert CacheOf(end, t) == C.Empties();
    assert CacheOk(end, t);
    forall h: Addr | h in end.place
      ensures end.place[h] != Cached(t)
    {
      assert !InCache(C.Empties(), h);
    }
  }

  // ---------- thread exit with other threads in between ----------

  ghost function CachedBy(m: Machine, t: Thread): set<Addr> {
    set h | h in m.place && m.place[h] == Cached(t)
  }

  predicate DrainStep(step: Step) {
    step.PopHead? || step.FreeDirect? || step.BeginPush? || step.FinishPush?
  }

  /** How many entries thread t takes out. */
  function PopsBy(t: Thread, steps: seq<Step>): nat {
    if steps == [] then 0
    else (if steps[0].PopHead? && Actor(steps[0]) == t then 1 else 0) + PopsBy(t, steps[1..])
  }

  // Only its own pops change what a draining thread has cached.
  lemma DrainStepCached(m: Machine, step: Step, t: Thread)
    requires Inv(m) && Enabled(m, step) && (Actor(step) == t ==> DrainStep(step))
    ensures if step.PopHead? && Actor(step) == t
            then CacheOf(m, t)[step.idx][0] in CachedBy(m, t)
                 && CachedBy(Next(m, step), t) == CachedBy(m, t) - {CacheOf(m, t)[step.idx][0]}
            else CachedBy(Next(m, step), t) == CachedBy(m, t)
  {
    var n := Next(m, step);
    if step.PopHead? {
      var h: Addr := CacheOf(m, step.t)[step.idx][0];
      assert h in CacheOf(m, step.t)[step.idx];
      CachedFits(m, step.t, step.idx, h);
    } else if step.PopOwn? {
      var h: Addr := CacheOf(m, step.t)[step.idx][step.k];
      assert h in CacheOf(m, step.t)[step.idx];
      CachedFits(m, step.t, step.idx, h);
    } else if step.Allocate? {
      FreeUnowned(m, step.t, step.h);
    } else if step.ReplayOne? {
      ReplayedNext(m, step.t);
    } else if step.Exchange? {
      StackIsParked(m, step.t);
    }
    forall x: Addr
      ensures x in CachedBy(n, t) <==>
                (x in CachedBy(m, t) && !(step.PopHead? && Actor(step) == t && x == CacheOf(m, t)[step.idx][0]))
    {
      hide CachesInv, FitInv, RunnerOk, RunnersApart, Carve, Stretch, Release, WithChunk, LegalRunSize, NextFree;
      hide ChunkOk;
      hide FirstOwn, HasRoom, Fits;
    }
  }

  lemma StackIsParked(m: Machine, t: Thread)
    requires Inv(m) && t in m.runners
    ensures forall h: Addr :: h in m.runners[t].stack ==> h in m.place && m.place[h] == Parked
  {
    hide Heap, Live, Distinct, RunnersApart, CachesInv, FitInv;
    assert RunnerOk(m, t);
  }

  lemma MemberOf<T>(s: set<T>) returns (h: T)
    requires s != {}
    ensures h in s
  {
    h :| h in s;
  }

  // While runs are cached, the next one can be taken out.
  lemma NextPop(m: Machine, t: Thread)
    requires Inv(m)
    ensures CachedBy(m, t) == {} ==> CacheOf(m, t) == C.Empties()
    ensures CachedBy(m, t) != {} ==> exists idx: nat :: Enabled(m, PopHead(t, idx))
  {
    hide HeapsInv, FitInv, OncePerCache, Bounded;
    var lists := CacheOf(m, t);
    assert CacheOk(m, t);
    if CachedBy(m, t) == {} {
      forall i | 0 <= i < |lists|
        ensures lists[i] == []
      {
        forall h: Addr
          ensures h !in lists[i]
        {
          assert h in lists[i] ==> InCache(lists, h);
          assert h !in CachedBy(m, t);
        }
        Memberless(lists[i]);
      }
      assert lists == C.Empties();
    } else {
      var h := MemberOf(CachedBy(m, t));
      assert InCache(lists, h);
      var i :| 0 <= i < |lists| && h in lists[i];
      assert Enabled(m, PopHead(t, i));
    }
  }

  /** Thread exit is not disturbed by others: whatever steps of other threads come between
      the steps of a draining one, its cache loses exactly what it takes out, one run at a
      time, and until the cache is empty it can go on. */
  lemma {:induction false} ExitUndisturbed(m: Machine, steps: seq<Step>, end: Machine, t: Thread)
    requires Inv(m) && Reaches(m, steps, end)
    requires forall s :: s in steps && Actor(s) == t ==> DrainStep(s)
    ensures CachedBy(end, t) <= CachedBy(m, t)
    ensures |CachedBy(end, t)| + PopsBy(t, steps) == |CachedBy(m, t)|
    ensures CachedBy(end, t) == {} ==> CacheOf(end, t) == C.Empties()
    ensures CachedBy(end, t) != {} ==> exists idx: nat :: Enabled(end, PopHead(t, idx))
    decreases |steps|
  {
    hide Inv, Enabled, Next, Actor, CachedBy, CacheOf;
    if steps == [] {
      NextPop(m, t);
    } else {
      assert steps[0] in steps;
      assert forall s :: s in steps[1..] ==> s in steps;
      StepKeeps(m, steps[0]);
      DrainStepCached(m, steps[0], t);
      ExitUndisturbed(Next(m, steps[0]), steps[1..], end, t);
    }
  }

  /** ... and what it has taken out can go home at any time: a run of its own can be
      freed, another can be pushed, and a push that has begun can be finished. */
  lemma HeldGoesHome(m: Machine, t: Thread, h: Addr)
    requires Inv(m) && h in m.owner && h in m.place
    ensures m.place[h] == User(t) && m.owner[h] == t ==> Enabled(m, FreeDirect(t, h))
    ensures m.place[h] == User(t) && m.owner[h] != t && Idle(m, t) ==> Enabled(m, BeginPush(t, h))
    ensures m.place[h] == Pushing(t) ==> Enabled(m, FinishPush(t, h))
  {
    OnListOfOwner(m, m.owner[h], h);
    hide Inv;
  }

  /** Who has a run may hand it to any thread, or put it by under any count that its payload
      holds, whoever owns it, while the class has fewer than 32 entries; an own run, as the
      refill puts it by, while it has fewer than 35. */
  lemma HolderChooses(m: Machine, t: Thread, h: Addr, idx: nat, u: Thread)
    requires Inv(m) && Has(m, t, h) && h in m.owner && idx < 256
    ensures Enabled(m, HandOver(t, h, u))
    ensures m.owner[h] in m.runners && h in m.runners[m.owner[h]].runs && idx < |CacheOf(m, t)|
    ensures var size, count := m.runners[m.owner[h]].runs[h].size, |CacheOf(m, t)[idx]|;
            16 * (idx + 1) <= size - 16 && (count < 32 || (m.owner[h] == t && count < 35)) ==>
                      Enabled(m, CacheIn(t, h, idx))
  {
    OnListOfOwner(m, m.owner[h], h);
    assert CacheOk(m, t);
    assert RunnerOk(m, m.owner[h]);
    hide Inv, Heap;
  }
}
