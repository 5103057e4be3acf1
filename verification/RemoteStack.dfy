/** The lock-free remote-free stack, step by step: any number of threads push the
    blocks they hold, with the load, the link write and the weak compare-exchange
    as separate steps that interleave freely; the owner empties the stack by one
    exchange and then walks what it took. Steps are sequentially consistent. */
module RemoteStack {
  import opened Chains

  type Block = int
  type Thread = nat

  /** Where a thread stands in `remote_push`: `expected` is the local variable
      `head` of the source. */
  datatype Pc = Idle | Loaded(b: Block, expected: Block) | Linked(b: Block, expected: Block)

  /** Where a block is. */
  datatype Place = Free | Held(t: Thread) | Pushing(t: Thread) | Parked | Batch

  datatype Event = Pushed(b: Block) | Exchanged | Replayed(b: Block)

  /** The shared words (links, head), the owner's cursor and the threads' places in
      their code; then, as history, the stack and batch as lists and the log. */
  datatype State = State(
    link: map<Block, int>,
    head: Block,
    cursor: Block,
    pc: map<Thread, Pc>,
    place: map<Block, Place>,
    stack: seq<Block>,
    batch: seq<Block>,
    log: seq<Event>)

  datatype Step =
    | Issue(t: Thread, b: Block)
    | Write(t: Thread, b: Block, value: int)
    | HandOver(t: Thread, b: Block, u: Thread)
    | LocalFree(t: Thread, b: Block)
    | Scribble(b: Block, value: int)
    | LoadHead(t: Thread, b: Block)
    | WriteLink(t: Thread)
    | CasSuccess(t: Thread)
    | CasFailure(t: Thread)
    | Exchange
    | Replay

  predicate HeldBy(s: State, b: Block, t: Thread) {
    b in s.place && s.place[b] == Held(t) && t in s.pc
  }

  predicate Enabled(s: State, step: Step) {
    match step
    case Issue(t, b) => b in s.place && s.place[b] == Free && t in s.pc
    case Write(t, b, value) => HeldBy(s, b, t)
    case HandOver(t, b, u) => HeldBy(s, b, t) && u in s.pc
    case LocalFree(t, b) => HeldBy(s, b, t)
    case Scribble(b, value) => b in s.place && s.place[b] == Free
    case LoadHead(t, b) => HeldBy(s, b, t) && s.pc[t] == Idle
    case WriteLink(t) => t in s.pc && s.pc[t].Loaded?
    case CasSuccess(t) => t in s.pc && s.pc[t].Linked? && s.pc[t].expected == s.head
    case CasFailure(t) => t in s.pc && s.pc[t].Linked?
    case Exchange => s.cursor == 0
    case Replay => s.cursor in s.link && s.cursor in s.place
  }

  /** The owner may write what it likes into a free block: free lists, boundary tags, the
      link of the list it is spliced into. A weak compare-exchange that succeeds needs
      the head to equal the expected value, but may fail at any time; a failure reloads
      the head. */
  function Next(s: State, step: Step): State
    requires Enabled(s, step)
  {
    match step
    case Issue(t, b) => s.(place := s.place[b := Held(t)])
    case Write(t, b, value) => s.(link := s.link[b := value])
    case HandOver(t, b, u) => s.(place := s.place[b := Held(u)])
    case LocalFree(t, b) => s.(place := s.place[b := Free])
    case Scribble(b, value) => s.(link := s.link[b := value])
    case LoadHead(t, b) => s.(pc := s.pc[t := Loaded(b, s.head)], place := s.place[b := Pushing(t)])
    case WriteLink(t) =>
      var p := s.pc[t];
      s.(link := s.link[p.b := p.expected], pc := s.pc[t := Linked(p.b, p.expected)])
    case CasSuccess(t) =>
      var b := s.pc[t].b;
      s.(head := b, pc := s.pc[t := Idle], place := s.place[b := Parked],
         stack := [b] + s.stack, log := s.log + [Pushed(b)])
    case CasFailure(t) => s.(pc := s.pc[t := Loaded(s.pc[t].b, s.head)])
    case Exchange =>
      s.(cursor := s.head, head := 0, stack := [], batch := s.stack,
         place := map b | b in s.place :: if s.place[b] == Parked then Batch else s.place[b],
         log := s.log + [Exchanged])
    case Replay =>
      s.(cursor := s.link[s.cursor], place := s.place[s.cursor := Free],
         batch := if s.batch == [] then [] else s.batch[1..],
         log := s.log + [Replayed(s.cursor)])
  }

  predicate Init(s: State) {
    && s.head == 0 && s.cursor == 0 && s.stack == [] && s.batch == [] && s.log == []
    && s.link.Keys == s.place.Keys && 0 !in s.place
    && (forall b :: b in s.place ==> s.place[b] == Free)
    && (forall t :: t in s.pc ==> s.pc[t] == Idle)
  }

  /** The states that some interleaving reaches from `s`. */
  ghost predicate Reaches(s: State, steps: seq<Step>, end: State)
    decreases |steps|
  {
    if steps == [] then s == end else Enabled(s, steps[0]) && Reaches(Next(s, steps[0]), steps[1..], end)
  }

  // ---------- what the log says ----------

  function Pushes(log: seq<Event>, b: Block): nat {
    if log == [] then 0 else Pushes(log[..|log| - 1], b) + (if log[|log| - 1] == Pushed(b) then 1 else 0)
  }

  function Replays(log: seq<Event>, b: Block): nat {
    if log == [] then 0 else Replays(log[..|log| - 1], b) + (if log[|log| - 1] == Replayed(b) then 1 else 0)
  }

  /** The blocks pushed since the last exchange, latest first. */
  function SinceExchange(log: seq<Event>): seq<Block> {
    if log == [] then [] else Waiting(SinceExchange(log[..|log| - 1]), log[|log| - 1])
  }

  function Waiting(earlier: seq<Block>, e: Event): seq<Block> {
    match e
    case Exchanged => []
    case Pushed(b) => [b] + earlier
    case Replayed(_) => earlier
  }

  lemma LogStep(log: seq<Event>, e: Event, b: Block)
    ensures Pushes(log + [e], b) == Pushes(log, b) + (if e == Pushed(b) then 1 else 0)
    ensures Replays(log + [e], b) == Replays(log, b) + (if e == Replayed(b) then 1 else 0)
    ensures SinceExchange(log + [e]) == Waiting(SinceExchange(log), e)
  {
    assert (log + [e])[..|log|] == log;
  }

  // ---------- the invariant ----------

  ghost predicate PcOk(s: State, t: Thread)
    requires t in s.pc
  {
    match s.pc[t]
    case Idle => forall b :: b in s.place ==> s.place[b] != Pushing(t)
    case Loaded(b, e) => b in s.place && forall c :: c in s.place ==> (s.place[c] == Pushing(t) <==> c == b)
    case Linked(b, e) =>
      && b in s.link && s.link[b] == e
      && b in s.place && forall c :: c in s.place ==> (s.place[c] == Pushing(t) <==> c == b)
  }

  /** Blocks are in exactly the places the lists say, links spell the lists, and
      every push is either waiting or has been replayed, once. */
  ghost predicate Inv(s: State) {
    && s.link.Keys == s.place.Keys && 0 !in s.place
    && Chain(s.link, s.head, s.stack)
    && Chain(s.link, s.cursor, s.batch)
    && (forall b :: b in s.stack <==> b in s.place && s.place[b] == Parked)
    && (forall b :: b in s.batch <==> b in s.place && s.place[b] == Batch)
    && (forall t {:trigger PcOk(s, t)} :: t in s.pc ==> PcOk(s, t))
    && (forall b :: Pushes(s.log, b) == Replays(s.log, b) + (if b in s.stack || b in s.batch then 1 else 0))
    && s.stack == SinceExchange(s.log)
  }

  lemma InitInv(s: State)
    requires Init(s)
    ensures Inv(s)
  {
  }

  lemma Counted(log: seq<Event>, e: Event)
    ensures forall b :: Pushes(log + [e], b) == Pushes(log, b) + (if e == Pushed(b) then 1 else 0)
    ensures forall b :: Replays(log + [e], b) == Replays(log, b) + (if e == Replayed(b) then 1 else 0)
    ensures SinceExchange(log + [e]) == Waiting(SinceExchange(log), e)
  {
    forall b
      ensures Pushes(log + [e], b) == Pushes(log, b) + (if e == Pushed(b) then 1 else 0)
      ensures Replays(log + [e], b) == Replays(log, b) + (if e == Replayed(b) then 1 else 0)
    {
      LogStep(log, e, b);
    }
    LogStep(log, e, 0);
  }

  lemma CasKeeps(s: State, t: Thread)
    requires Inv(s) && Enabled(s, CasSuccess(t))
    ensures Inv(Next(s, CasSuccess(t)))
  {
    hide Pushes, Replays, SinceExchange;
    var b, n := s.pc[t].b, Next(s, CasSuccess(t));
    assert PcOk(s, t);
    ChainExtend(s.link, s.head, s.stack, b);
    Counted(s.log, Pushed(b));
    forall u | u in n.pc
      ensures PcOk(n, u)
    {
      assert PcOk(s, u);
    }
  }

  lemma ExchangeKeeps(s: State)
    requires Inv(s) && Enabled(s, Exchange)
    ensures Inv(Next(s, Exchange))
  {
    hide Pushes, Replays, SinceExchange, LinkOk;
    var n := Next(s, Exchange);
    ChainPop(s.link, s.cursor, s.batch);
    Counted(s.log, Exchanged);
    forall u | u in n.pc
      ensures PcOk(n, u)
    {
      assert PcOk(s, u);
    }
  }

  lemma ReplayKeeps(s: State)
    requires Inv(s) && Enabled(s, Replay)
    ensures Inv(Next(s, Replay))
  {
    hide Pushes, Replays, SinceExchange, LinkOk;
    var n := Next(s, Replay);
    ChainPop(s.link, s.cursor, s.batch);
    Counted(s.log, Replayed(s.cursor));
    forall u | u in n.pc
      ensures PcOk(n, u)
    {
      assert PcOk(s, u);
    }
  }

  lemma WriteLinkKeeps(s: State, t: Thread)
    requires Inv(s) && Enabled(s, WriteLink(t))
    ensures Inv(Next(s, WriteLink(t)))
  {
    hide Pushes, Replays, SinceExchange, LinkOk, Chain;
    var n := Next(s, WriteLink(t));
    assert PcOk(s, t);
    ChainFrame(s.link, n.link, s.head, s.stack);
    ChainFrame(s.link, n.link, s.cursor, s.batch);
    forall u | u in n.pc
      ensures PcOk(n, u)
    {
      assert PcOk(s, u);
    }
  }

  // A user writes his block, or the owner a free one.
  lemma WriteKeeps(s: State, step: Step)
    requires Inv(s) && Enabled(s, step) && (step.Write? || step.Scribble?)
    ensures Inv(Next(s, step))
  {
    hide Pushes, Replays, SinceExchange, LinkOk, Chain;
    var n := Next(s, step);
    ChainFrame(s.link, n.link, s.head, s.stack);
    ChainFrame(s.link, n.link, s.cursor, s.batch);
    forall u | u in n.pc
      ensures PcOk(n, u)
    {
      assert PcOk(s, u);
    }
  }

  // A block that moves between users and pushers, or a new try of a pusher.
  lemma MoveKeeps(s: State, step: Step)
    requires Inv(s) && Enabled(s, step)
    requires step.Issue? || step.HandOver? || step.LocalFree? || step.LoadHead? || step.CasFailure?
    ensures Inv(Next(s, step))
  {
    hide Pushes, Replays, SinceExchange, LinkOk, Chain;
    var n := Next(s, step);
    forall u | u in n.pc
      ensures PcOk(n, u)
    {
      assert PcOk(s, u);
    }
  }

  /** Every step, by whichever thread, keeps the invariant. */
  lemma StepKeeps(s: State, step: Step)
    requires Inv(s) && Enabled(s, step)
    ensures Inv(Next(s, step))
  {
    hide Inv, Enabled, Next;
    match step {
      case CasSuccess(t) => CasKeeps(s, t);
      case Exchange => ExchangeKeeps(s);
      case Replay => ReplayKeeps(s);
      case WriteLink(t) => WriteLinkKeeps(s, t);
      case Write(t, b, value) => WriteKeeps(s, step);
      case Scribble(b, value) => WriteKeeps(s, step);
      case _ => MoveKeeps(s, step);
    }
  }

  // The step takes block b from the user who holds it.
  predicate LeavesUser(step: Step, b: Block) {
    (step.HandOver? || step.LocalFree? || step.LoadHead?) && step.b == b
  }

  /** The life of a block: free, with one user after another, being pushed, parked, in the
      batch, free again. Each change of place is made by the one step whose business it
      is, and whoever acts, no other block moves. */
  lemma Lifecycle(s: State, step: Step, b: Block)
    requires Inv(s) && Enabled(s, step) && b in s.place
    ensures var p, n := s.place[b], Next(s, step);
            && b in n.place
            && (forall u :: n.place[b] == Held(u) <==>
                  || step == Issue(u, b) || (step.HandOver? && step.b == b && step.u == u)
                  || (p == Held(u) && !LeavesUser(step, b)))
            && (forall u :: n.place[b] == Pushing(u) <==>
                  step == LoadHead(u, b) || (p == Pushing(u) && step != CasSuccess(u)))
            && (n.place[b] == Parked <==>
                  (step.CasSuccess? && p == Pushing(step.t)) || (p == Parked && step != Exchange))
            && (n.place[b] == Batch <==>
                  (step == Exchange && p == Parked) || (p == Batch && !(step == Replay && s.batch[..1] == [b])))
  {
    hide Pushes, Replays, SinceExchange, LinkOk;
    if step == Replay {
      ChainPop(s.link, s.cursor, s.batch);
      assert s.batch[..1] == [s.cursor];
    } else if step.CasSuccess? {
      assert PcOk(s, step.t);
    }
    hide Chain;
  }

  lemma {:induction false} RunKeeps(s: State, steps: seq<Step>, end: State)
    requires Inv(s) && Reaches(s, steps, end)
    ensures Inv(end)
    decreases |steps|
  {
    hide Inv;
    if steps == [] {
    } else {
      StepKeeps(s, steps[0]);
      RunKeeps(Next(s, steps[0]), steps[1..], end);
    }
  }

  /** Over every interleaving: the stack is an acyclic list of exactly the pushes
      completed since the last exchange, and no push is lost or replayed twice. */
  lemma ExactlyOnce(init: State, steps: seq<Step>, s: State)
    requires Init(init) && Reaches(init, steps, s)
    ensures Chain(s.link, s.head, s.stack) && s.stack == SinceExchange(s.log)
    ensures forall b :: Replays(s.log, b) <= Pushes(s.log, b) <= Replays(s.log, b) + 1
    ensures forall b :: Pushes(s.log, b) == Replays(s.log, b) <==> b !in s.stack && b !in s.batch
    ensures s.head == 0 && s.cursor == 0 ==> forall b :: Pushes(s.log, b) == Replays(s.log, b)
  {
    hide Pushes, Replays, SinceExchange, PcOk;
    InitInv(init);
    RunKeeps(init, steps, s);
    ChainPop(s.link, s.head, s.stack);
    ChainPop(s.link, s.cursor, s.batch);
  }

  function Replayings(n: nat): (r: seq<Step>)
    ensures |r| == n
  {
    if n == 0 then [] else [Replay] + Replayings(n - 1)
  }

  /** The owner's walk ends after exactly as many steps as it took blocks, with each
      of them free, and leaves the stack that has meanwhile formed alone. */
  lemma {:induction false} WalkEnds(s: State) returns (end: State)
    requires Inv(s)
    ensures Reaches(s, Replayings(|s.batch|), end) && Inv(end)
    ensures end.cursor == 0 && end.batch == [] && end.stack == s.stack && end.head == s.head && end.pc == s.pc
    ensures end.place.Keys == s.place.Keys
    ensures forall b :: b in s.place ==> end.place[b] == if b in s.batch then Free else s.place[b]
    decreases |s.batch|
  {
    hide Pushes, Replays, SinceExchange, LinkOk, PcOk;
    ChainPop(s.link, s.cursor, s.batch);
    if s.batch == [] {
      end := s;
    } else {
      ReplayKeeps(s);
      var n := Next(s, Replay);
      end := WalkEnds(n);
      assert Replayings(|s.batch|)[1..] == Replayings(|n.batch|);
    }
  }

  lemma WalkStep(s: State, step: Step)
    requires Inv(s)
    ensures s.batch != [] ==> Enabled(s, Replay)
    ensures Enabled(s, step) && step == Replay ==> s.batch != [] && Next(s, step).batch == s.batch[1..]
    ensures Enabled(s, step) && step != Replay && step != Exchange ==> Next(s, step).batch == s.batch
  {
    hide Pushes, Replays, SinceExchange, LinkOk, PcOk;
    ChainPop(s.link, s.cursor, s.batch);
  }

  function CountReplays(steps: seq<Step>): nat {
    if steps == [] then 0 else (if steps[0] == Replay then 1 else 0) + CountReplays(steps[1..])
  }

  /** Whatever other threads do meanwhile, and whatever the owner writes into the blocks
      it has freed: until the next exchange the walk can always go on while it has not
      met every block, each step of it frees the next one, and nothing else moves it. */
  lemma {:induction false} WalkUndisturbed(s: State, steps: seq<Step>, end: State)
    requires Inv(s) && Reaches(s, steps, end) && forall step :: step in steps ==> step != Exchange
    ensures CountReplays(steps) <= |s.batch|
    ensures end.batch == s.batch[CountReplays(steps)..] && (end.batch != [] ==> Enabled(end, Replay))
    decreases |steps|
  {
    hide Inv, Enabled, Next;
    WalkStep(s, if steps == [] then Replay else steps[0]);
    if steps == [] {
    } else {
      assert steps[0] in steps;
      assert forall step :: step in steps[1..] ==> step in steps;
      StepKeeps(s, steps[0]);
      WalkUndisturbed(Next(s, steps[0]), steps[1..], end);
    }
  }

  /** ABA immunity: a compare-exchange that succeeds pushes onto the list that is there
      now, whatever has happened since its expected head was loaded; in particular if
      that head has meanwhile been drained, reissued and pushed again. */
  lemma AbaImmune(s: State, t: Thread)
    requires Inv(s) && Enabled(s, CasSuccess(t))
    ensures var n := Next(s, CasSuccess(t));
            && Chain(n.link, n.head, [s.pc[t].b] + s.stack)
            && (forall b :: b in s.stack <==> b in s.place && s.place[b] == Parked)
            && s.pc[t].b !in s.stack
  {
    hide Pushes, Replays, SinceExchange;
    CasKeeps(s, t);
    assert PcOk(s, t);
  }

  // ---------- progress ----------

  /** The block of thread t heads the list that was there, and nothing else has moved. */
  ghost predicate PushedOnto(s: State, t: Thread, b: Block, end: State) {
    && end.head == b && end.stack == [b] + s.stack && Chain(end.link, b, [b] + s.stack)
    && end.pc == s.pc[t := Idle] && end.place == s.place[b := Parked]
    && end.batch == s.batch && end.cursor == s.cursor && end.log == s.log + [Pushed(b)]
    && (forall c :: c in s.link && c != b ==> c in end.link && end.link[c] == s.link[c])
  }

  /** A retry gets there: a failed compare-exchange has reloaded the head, so the next
      try succeeds if nothing comes between, and the block heads the list that is there. */
  lemma RetrySucceeds(s: State, t: Thread) returns (end: State)
    requires Inv(s) && Enabled(s, CasFailure(t))
    ensures Reaches(s, [CasFailure(t), WriteLink(t), CasSuccess(t)], end)
    ensures Inv(end) && PushedOnto(s, t, s.pc[t].b, end)
  {
    var a := Next(s, CasFailure(t));
    MoveKeeps(s, CasFailure(t));
    end := LinkAndSwap(a, t);
    hide Inv, Next, Enabled, Chain;
    OneStep(s, CasFailure(t));
    RunsCompose(s, [CasFailure(t)], a, [WriteLink(t), CasSuccess(t)], end);
    assert [CasFailure(t)] + [WriteLink(t), CasSuccess(t)] == [CasFailure(t), WriteLink(t), CasSuccess(t)];
  }

  /** A push that nothing comes between succeeds at its first try. */
  lemma PushSucceeds(s: State, t: Thread, b: Block) returns (end: State)
    requires Inv(s) && Enabled(s, LoadHead(t, b))
    ensures Reaches(s, [LoadHead(t, b), WriteLink(t), CasSuccess(t)], end)
    ensures Inv(end) && PushedOnto(s, t, b, end)
  {
    var a := Next(s, LoadHead(t, b));
    MoveKeeps(s, LoadHead(t, b));
    end := LinkAndSwap(a, t);
    hide Inv, Next, Enabled, Chain;
    OneStep(s, LoadHead(t, b));
    RunsCompose(s, [LoadHead(t, b)], a, [WriteLink(t), CasSuccess(t)], end);
    assert [LoadHead(t, b)] + [WriteLink(t), CasSuccess(t)] == [LoadHead(t, b), WriteLink(t), CasSuccess(t)];
  }

  // From a head just loaded.
  lemma LinkAndSwap(s: State, t: Thread) returns (end: State)
    requires Inv(s) && t in s.pc && s.pc[t].Loaded? && s.pc[t].expected == s.head
    ensures Reaches(s, [WriteLink(t), CasSuccess(t)], end)
    ensures Inv(end) && PushedOnto(s, t, s.pc[t].b, end)
  {
    hide Pushes, Replays, SinceExchange, LinkOk, Chain;
    var b, a := s.pc[t].b, Next(s, WriteLink(t));
    assert PcOk(s, t);
    WriteLinkKeeps(s, t);
    CasKeeps(a, t);
    end := Next(a, CasSuccess(t));
    hide Inv;
    OneStep(s, WriteLink(t));
    OneStep(a, CasSuccess(t));
    RunsCompose(s, [WriteLink(t)], a, [CasSuccess(t)], end);
    assert [WriteLink(t)] + [CasSuccess(t)] == [WriteLink(t), CasSuccess(t)];
  }

  /** Lock freedom: only a success stands in the way of a success. While no push
      completes and the owner does not exchange, whatever else any thread does, the
      head that was loaded is still there and the compare-exchange can succeed. */
  lemma {:induction false} OnlySuccessDisturbs(s: State, steps: seq<Step>, t: Thread, end: State)
    requires Reaches(s, steps, end)
    requires t in s.pc && s.pc[t] != Idle && s.pc[t].expected == s.head
    requires forall step :: step in steps ==> !step.CasSuccess? && step != Exchange
    ensures end.head == s.head && end.stack == s.stack
    ensures t in end.pc && end.pc[t] != Idle && end.pc[t].b == s.pc[t].b && end.pc[t].expected == end.head
    ensures end.pc[t].Linked? ==> Enabled(end, CasSuccess(t))
    ensures end.pc[t].Loaded? ==> Enabled(end, WriteLink(t)) && Enabled(Next(end, WriteLink(t)), CasSuccess(t))
    decreases |steps|
  {
    if steps == [] {
    } else {
      assert steps[0] in steps;
      assert forall step :: step in steps[1..] ==> step in steps;
      OnlySuccessDisturbs(Next(s, steps[0]), steps[1..], t, end);
    }
  }

  // Thread 1 has loaded head 1 and linked its own block 2 to it.
  function AbaState(): State {
    State(map[1 := 0, 2 := 1], 1, 0, map[0 := Idle, 1 := Linked(2, 1)],
          map[1 := Parked, 2 := Pushing(1)], [1], [], [Pushed(1)])
  }

  lemma AbaStateOk()
    ensures Inv(AbaState())
  {
    var s := AbaState();
    Counted([], Pushed(1));
    assert [] + [Pushed(1)] == s.log;
    assert LinkOk(s.link, s.stack, 0);
    assert PcOk(s, 0) && PcOk(s, 1);
  }

  lemma {:induction false} RunsCompose(s: State, xs: seq<Step>, m: State, ys: seq<Step>, end: State)
    requires Reaches(s, xs, m) && Reaches(m, ys, end)
    ensures Reaches(s, xs + ys, end)
    decreases |xs|
  {
    if xs == [] {
      assert xs + ys == ys;
    } else {
      assert (xs + ys)[1..] == xs[1..] + ys;
      RunsCompose(Next(s, xs[0]), xs[1..], m, ys, end);
    }
  }

  lemma OneStep(s: State, step: Step)
    requires Enabled(s, step)
    ensures Reaches(s, [step], Next(s, step))
  {
  }

  // The owner drains block 1 ...
  lemma AbaDrain() returns (steps: seq<Step>, end: State)
    ensures Reaches(AbaState(), steps, end)
    ensures end == AbaState().(link := end.link, head := 0, stack := [], place := map[1 := Free, 2 := Pushing(1)],
                log := [Pushed(1)] + [Exchanged] + [Replayed(1)])
    ensures end.link == AbaState().link
  {
    var s := AbaState();
    var a := Next(s, Exchange);
    assert a.place == map[1 := Batch, 2 := Pushing(1)];
    OneStep(s, Exchange);
    OneStep(a, Replay);
    end := Next(a, Replay);
    RunsCompose(s, [Exchange], a, [Replay], end);
    steps := [Exchange] + [Replay];
  }

  // ... and thread 0 gets it and starts pushing it again.
  lemma AbaReissue(s: State) returns (steps: seq<Step>, end: State)
    requires s.place == map[1 := Free, 2 := Pushing(1)] && s.pc == map[0 := Idle, 1 := Linked(2, 1)] && s.head == 0
    requires 1 in s.link
    ensures Reaches(s, steps, end)
    ensures end.pc == map[0 := Linked(1, 0), 1 := Linked(2, 1)] && end.head == 0 && end.log == s.log && 1 in end.place
  {
    var c := Next(s, Issue(0, 1));
    var d := Next(c, LoadHead(0, 1));
    OneStep(s, Issue(0, 1));
    OneStep(c, LoadHead(0, 1));
    OneStep(d, WriteLink(0));
    end := Next(d, WriteLink(0));
    RunsCompose(s, [Issue(0, 1)], c, [LoadHead(0, 1)], d);
    RunsCompose(s, [Issue(0, 1)] + [LoadHead(0, 1)], d, [WriteLink(0)], end);
    steps := [Issue(0, 1)] + [LoadHead(0, 1)] + [WriteLink(0)];
  }

  /** ... and that does happen: thread 1 expects block 1 at the head; the owner
      drains it, thread 0 gets it again and pushes it again; the prepared
      compare-exchange of thread 1 is then enabled as before. */
  lemma AbaHappens() returns (s1: State, steps: seq<Step>, s2: State)
    ensures s1 == AbaState() && Inv(s1) && s1.pc[1] == Linked(2, 1) && s1.head == 1
    ensures Reaches(s1, steps, s2)
    ensures 1 in s2.pc && s2.pc[1] == s1.pc[1] && Enabled(s2, CasSuccess(1))
    ensures s2.log == [Pushed(1)] + [Exchanged] + [Replayed(1)] + [Pushed(1)]
  {
    hide Inv, Reaches;
    AbaStateOk();
    s1 := AbaState();
    var drain, a := AbaDrain();
    var reissue, b := AbaReissue(a);
    OneStep(b, CasSuccess(0));
    s2 := Next(b, CasSuccess(0));
    RunsCompose(s1, drain, a, reissue, b);
    RunsCompose(s1, drain + reissue, b, [CasSuccess(0)], s2);
    steps := drain + reissue + [CasSuccess(0)];
  }
}
