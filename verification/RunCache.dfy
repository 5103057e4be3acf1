/** The thread-local cache of small runs: one intrusive list per 16-byte size class,
    whose entries may belong to other threads. The link and the owner stamp of an
    entry lie in the first two words of its payload, the owner word of its run in
    the word before. Calls into a runner are not part of this module: what it asks
    of the local runner and of other threads' remote stacks is returned as lists. */
module RunCache {
  import opened SizeClasses
  import opened Chains
  import H = HeapMemory

  type Memory = map<Addr, int>

  const QUANTUM: nat := 16
  const CUTOFF: nat := 4096
  const CLASS_COUNT: nat := CUTOFF / QUANTUM
  const REFILL_BATCH: nat := 4
  const HIGH_WATERMARK: nat := 32
  const LOW_WATERMARK: nat := 16
  const STAMP: int := 8
  const OWNER_WORD: int := -8

  // ---------- classes ----------

  function AlignUp(bytes: nat): nat {
    (bytes + (QUANTUM - 1)) / QUANTUM * QUANTUM
  }

  function ClassIndex(bytes: nat): int {
    AlignUp(bytes) / QUANTUM - 1
  }

  function ClassBytes(idx: nat): nat {
    (idx + 1) * QUANTUM
  }

  /** A run may be cached under any count its payload holds: the class it then enters
      promises no more than that payload, and at least the count. */
  lemma ClassFitsPayload(bytes: nat, payload: nat)
    requires 0 < bytes <= CUTOFF && bytes <= payload && payload % QUANTUM == 0
    ensures 0 <= ClassIndex(bytes) < 256
    ensures bytes <= ClassBytes(ClassIndex(bytes)) <= payload
    ensures ClassBytes(ClassIndex(bytes)) < bytes + 16 && ClassBytes(ClassIndex(bytes)) == 16 * (ClassIndex(bytes) + 1)
  {
    var k := payload / QUANTUM;
    assert payload == k * QUANTUM;
    var j := (bytes + (QUANTUM - 1)) / QUANTUM;
    assert j * QUANTUM < bytes + QUANTUM;
    assert ClassIndex(bytes) == j - 1;
  }

  // ---------- one list ----------

  /** The payload of a run, as the size word of its header has it. */
  function PayloadAt(mem: Memory, p: Addr): int
    requires p - HEADER_SIZE in mem
  {
    H.SizeField(mem[p - HEADER_SIZE]) - HEADER_SIZE
  }

  /** The run is as large as class idx promises. */
  predicate Roomy(mem: Memory, p: Addr, idx: nat) {
    p - HEADER_SIZE in mem && ClassBytes(idx) <= PayloadAt(mem, p)
  }

  ghost predicate EntryOk(mem: Memory, s: seq<Addr>, j: nat)
    requires j < |s|
  {
    var p := s[j];
    && p > 0 && p in mem && p + STAMP in mem && p + OWNER_WORD in mem
    && mem[p] == (if j + 1 < |s| then s[j + 1] else 0)
    && mem[p + STAMP] == mem[p + OWNER_WORD] != 0
  }

  /** From `head`, the links spell the list `s`; entries are stamped with the owner of
      their run; no two entries are closer than the least run. */
  ghost predicate ListOk(mem: Memory, head: Addr, s: seq<Addr>) {
    && head == (if s == [] then 0 else s[0])
    && (forall j: nat {:trigger EntryOk(mem, s, j)} :: j < |s| ==> EntryOk(mem, s, j))
    && Spread(s)
  }

  ghost predicate Spread(s: seq<Addr>) {
    forall i, j :: 0 <= i < |s| && 0 <= j < |s| && i != j ==> Apart(s[i], s[j])
  }

  ghost predicate Apart(p: Addr, q: Addr) {
    p + MIN_RUN <= q || q + MIN_RUN <= p
  }

  // The words of entry q are unaffected by writes to the first two words of p.
  ghost predicate KeptButEntry(before: Memory, after: Memory, p: Addr) {
    forall a: Addr {:trigger after[a]} {:trigger a in after} :: a in before && a != p && a != p + STAMP ==>
      a in after && after[a] == before[a]
  }

  lemma ListFrame(before: Memory, after: Memory, head: Addr, s: seq<Addr>, p: Addr)
    requires ListOk(before, head, s) && KeptButEntry(before, after, p)
    requires forall q :: q in s ==> Apart(p, q)
    ensures ListOk(after, head, s)
  {
    forall j: nat | j < |s|
      ensures EntryOk(after, s, j)
    {
      assert EntryOk(before, s, j) && s[j] in s;
    }
  }

  lemma ListPush(mem: Memory, head: Addr, s: seq<Addr>, p: Addr)
    requires ListOk(mem, head, s) && p > 0 && p + OWNER_WORD in mem && mem[p + OWNER_WORD] != 0
    requires forall q :: q in s ==> Apart(p, q)
    ensures ListOk(mem[p := head][p + STAMP := mem[p + OWNER_WORD]], p, [p] + s)
  {
    var after, t := mem[p := head][p + STAMP := mem[p + OWNER_WORD]], [p] + s;
    forall j: nat | j < |t|
      ensures EntryOk(after, t, j)
    {
      if j > 0 {
        assert EntryOk(mem, s, j - 1) && t[j] in s;
        assert j + 1 < |t| ==> t[j + 1] == s[j];
      }
    }
    forall i, j | 0 <= i < |t| && 0 <= j < |t| && i != j
      ensures Apart(t[i], t[j])
    {
      assert i > 0 ==> t[i] == s[i - 1] && t[i] in s;
      assert j > 0 ==> t[j] == s[j - 1] && t[j] in s;
    }
  }

  function HeadOf(s: seq<Addr>): Addr {
    if s == [] then 0 else s[0]
  }

  /** What pushing run p on a list writes: its link, and the owner its header names as
      its stamp. */
  function Pushed(mem: Memory, head: Addr, p: Addr): Memory
    requires p + OWNER_WORD in mem
  {
    mem[p := head][p + STAMP := mem[p + OWNER_WORD]]
  }

  /** What unhooking entry k writes: the link of the entry before it. */
  function Unhooked(mem: Memory, s: seq<Addr>, k: int): Memory
    requires 0 <= k < |s|
  {
    if k > 0 && s[k] in mem then mem[s[k - 1] := mem[s[k]]] else mem
  }

  function Without(s: seq<Addr>, k: nat): seq<Addr>
    requires k < |s|
  {
    s[..k] + s[k + 1..]
  }

  lemma RemoveSpread(s: seq<Addr>, k: nat)
    requires Spread(s) && k < |s|
    ensures Spread(Without(s, k))
    ensures forall q :: q in Without(s, k) ==> q in s && q != s[k]
  {
    var t := Without(s, k);
    forall i, j | 0 <= i < |t| && 0 <= j < |t| && i != j
      ensures Apart(t[i], t[j])
    {
      var x, y := if i < k then i else i + 1, if j < k then j else j + 1;
      assert t[i] == s[x] && t[j] == s[y] && x != y;
    }
    forall q | q in t
      ensures q in s && q != s[k]
    {
      var j :| 0 <= j < |t| && t[j] == q;
      var x := if j < k then j else j + 1;
      assert t[j] == s[x] && Apart(s[x], s[k]);
    }
  }

  /** Unlinking entry k: its predecessor, or the head, takes over its link. */
  lemma ListRemove(mem: Memory, head: Addr, s: seq<Addr>, k: nat)
    requires ListOk(mem, head, s) && k < |s|
    ensures EntryOk(mem, s, k)
    ensures k == 0 ==> ListOk(mem, mem[s[0]], Without(s, 0))
    ensures k > 0 ==> ListOk(mem[s[k - 1] := mem[s[k]]], head, Without(s, k))
    ensures forall q :: q in Without(s, k) ==> q in s && q != s[k]
  {
    var t := Without(s, k);
    assert EntryOk(mem, s, k);
    var after := if k == 0 then mem else mem[s[k - 1] := mem[s[k]]];
    forall j: nat | j < |t|
      ensures EntryOk(after, t, j)
    {
      var i := if j < k then j else j + 1;
      assert t[j] == s[i] && EntryOk(mem, s, i);
      assert k > 0 && i != k - 1 ==> Apart(s[k - 1], s[i]);
      assert j + 1 < |t| ==> t[j + 1] == if j + 1 < k then s[j + 1] else s[j + 2];
    }
    hide Spread;
    RemoveSpread(s, k);
  }

  // ---------- counting foreign entries ----------

  /** Entries stamped with an owner other than `local`. */
  ghost function Foreign(mem: Memory, s: seq<Addr>, local: int): nat {
    if s == [] then 0 else
    (if s[0] + STAMP in mem && mem[s[0] + STAMP] == local then 0 else 1) + Foreign(mem, s[1..], local)
  }

  lemma {:induction false} ForeignBound(mem: Memory, s: seq<Addr>, local: int)
    ensures Foreign(mem, s, local) <= |s|
  {
    if s == [] {
    } else {
      ForeignBound(mem, s[1..], local);
    }
  }

  lemma {:induction false} ForeignAll(mem: Memory, s: seq<Addr>, local: int)
    requires forall p :: p in s ==> p + STAMP in mem && mem[p + STAMP] != local
    ensures Foreign(mem, s, local) == |s|
  {
    if s == [] {
    } else {
      var p: Addr := s[0];
      assert p in s;
      assert forall q: Addr :: q in s[1..] ==> q in s;
      ForeignAll(mem, s[1..], local);
    }
  }

  lemma {:induction false} ForeignFrame(before: Memory, after: Memory, s: seq<Addr>, local: int)
    requires forall p :: p in s ==> p + STAMP in before && p + STAMP in after && after[p + STAMP] == before[p + STAMP]
    ensures Foreign(after, s, local) == Foreign(before, s, local)
  {
    if s == [] {
    } else {
      var p: Addr := s[0];
      assert p in s;
      assert forall q: Addr :: q in s[1..] ==> q in s;
      ForeignFrame(before, after, s[1..], local);
    }
  }

  lemma {:induction false} ForeignWithout(mem: Memory, s: seq<Addr>, local: int, k: nat)
    requires k < |s|
    ensures Foreign(mem, Without(s, k), local) <= Foreign(mem, s, local)
  {
    if k == 0 {
      assert Without(s, 0) == s[1..];
    } else {
      assert Without(s, k)[0] == s[0] && Without(s, k)[1..] == Without(s[1..], k - 1);
      ForeignWithout(mem, s[1..], local, k - 1);
    }
  }

  // ---------- the cache ----------

  /** One class of the cache. */
  ghost predicate ClassOk(mem: Memory, head: Addr, count: nat, s: seq<Addr>, idx: nat, local: int) {
    && ListOk(mem, head, s)
    && count == |s|
    && (forall p :: p in s ==> Roomy(mem, p, idx))
    && |s| <= HIGH_WATERMARK + REFILL_BATCH - 1
    && Foreign(mem, s, local) <= HIGH_WATERMARK
  }

  /** Entries of different classes are different runs. */
  ghost predicate ClassesApart(lists: seq<seq<Addr>>) {
    forall i, j, p, q :: 0 <= i < |lists| && 0 <= j < |lists| && i != j && p in lists[i] && q in lists[j] ==>
      Apart(p, q)
  }

  /** The run `p` is none of the cached ones. */
  ghost predicate ApartFromAll(lists: seq<seq<Addr>>, p: Addr) {
    forall i, q :: 0 <= i < |lists| && q in lists[i] ==> Apart(p, q)
  }

  // A class is not affected by what happens to a run of another class.
  lemma ClassFrame(before: Memory, after: Memory, head: Addr, count: nat, s: seq<Addr>, idx: nat, local: int, p: Addr)
    requires ClassOk(before, head, count, s, idx, local) && KeptButEntry(before, after, p)
    requires forall q :: q in s ==> Apart(p, q)
    ensures ClassOk(after, head, count, s, idx, local)
  {
    ListFrame(before, after, head, s, p);
    forall q | q in s
      ensures q + STAMP in before && q + STAMP in after && after[q + STAMP] == before[q + STAMP]
    {
      var j :| 0 <= j < |s| && s[j] == q;
      assert EntryOk(before, s, j);
    }
    ForeignFrame(before, after, s, local);
  }

  lemma ClassPush(mem: Memory, head: Addr, count: nat, s: seq<Addr>, idx: nat, local: int, p: Addr)
    requires ClassOk(mem, head, count, s, idx, local) && p > 0 && p + OWNER_WORD in mem && mem[p + OWNER_WORD] != 0
    requires Roomy(mem, p, idx)
    requires forall q :: q in s ==> Apart(p, q)
    requires |s| < HIGH_WATERMARK + REFILL_BATCH - 1
    requires |s| < HIGH_WATERMARK || mem[p + OWNER_WORD] == local
    ensures ClassOk(mem[p := head][p + STAMP := mem[p + OWNER_WORD]], p, count + 1, [p] + s, idx, local)
  {
    var after, t := mem[p := head][p + STAMP := mem[p + OWNER_WORD]], [p] + s;
    ListPush(mem, head, s, p);
    ClassFrame(mem, after, head, count, s, idx, local, p);
    ForeignBound(after, s, local);
    assert t[0] == p && t[1..] == s;
  }

  lemma ApartPush(lists: seq<seq<Addr>>, idx: nat, p: Addr)
    requires ClassesApart(lists) && idx < |lists|
    requires ApartFromAll(lists, p)
    ensures ClassesApart(lists[idx := [p] + lists[idx]])
  {
    var after := lists[idx := [p] + lists[idx]];
    forall i, j, x, y | 0 <= i < |after| && 0 <= j < |after| && i != j && x in after[i] && y in after[j]
      ensures Apart(x, y)
    {
      if x in lists[i] && y in lists[j] {
      } else if x in lists[i] {
        assert Apart(p, x);
      } else {
        assert Apart(p, y);
      }
    }
  }

  lemma ApartFewer(lists: seq<seq<Addr>>, idx: nat, t: seq<Addr>)
    requires ClassesApart(lists) && idx < |lists|
    requires forall p :: p in t ==> p in lists[idx]
    ensures ClassesApart(lists[idx := t])
  {
    var after := lists[idx := t];
    forall i, j, x, y | 0 <= i < |after| && 0 <= j < |after| && i != j && x in after[i] && y in after[j]
      ensures Apart(x, y)
    {
      assert x in lists[i] && y in lists[j];
    }
  }

  // ---------- where drained entries go ----------

  ghost predicate StampedBy(mem: Memory, p: Addr, owner: int) {
    p + STAMP in mem && mem[p + STAMP] == owner
  }

  /** The entries the local runner frees itself, in list order. */
  ghost function LocalOf(mem: Memory, s: seq<Addr>, local: int): seq<Addr> {
    if s == [] then [] else (if StampedBy(mem, s[0], local) then [s[0]] else []) + LocalOf(mem, s[1..], local)
  }

  /** The entries that go home over their owners' remote stacks, in list order. */
  ghost function ForeignOf(mem: Memory, s: seq<Addr>, local: int): seq<Addr> {
    if s == [] then [] else (if StampedBy(mem, s[0], local) then [] else [s[0]]) + ForeignOf(mem, s[1..], local)
  }

  lemma OneRouted(p: Addr, own: bool, l: seq<Addr>, f: seq<Addr>, rest: seq<Addr>)
    requires multiset(l) + multiset(f) == multiset(rest)
    ensures multiset((if own then [p] else []) + l) + multiset((if own then [] else [p]) + f) == multiset([p] + rest)
  {
    if own {
      assert [] + f == f && multiset([p] + l) == multiset([p]) + multiset(l);
    } else {
      assert [] + l == l && multiset([p] + f) == multiset([p]) + multiset(f);
    }
    assert multiset([p] + rest) == multiset([p]) + multiset(rest);
  }

  lemma {:induction false} RoutedRight(mem: Memory, s: seq<Addr>, local: int)
    ensures forall p :: p in LocalOf(mem, s, local) ==> StampedBy(mem, p, local)
    ensures forall p :: p in ForeignOf(mem, s, local) ==> !StampedBy(mem, p, local)
  {
    if s == [] {
    } else {
      RoutedRight(mem, s[1..], local);
    }
  }

  /** Routing loses and duplicates nothing: each entry goes exactly one way, local
      ones to the local runner and foreign ones to a remote stack. */
  lemma {:induction false} RoutingConserves(mem: Memory, s: seq<Addr>, local: int)
    ensures multiset(LocalOf(mem, s, local)) + multiset(ForeignOf(mem, s, local)) == multiset(s)
    ensures forall p :: p in LocalOf(mem, s, local) ==> StampedBy(mem, p, local)
    ensures forall p :: p in ForeignOf(mem, s, local) ==> !StampedBy(mem, p, local)
  {
    RoutedRight(mem, s, local);
    if s == [] {
    } else {
      RoutingConserves(mem, s[1..], local);
      var l, f := LocalOf(mem, s[1..], local), ForeignOf(mem, s[1..], local);
      OneRouted(s[0], StampedBy(mem, s[0], local), l, f, s[1..]);
      assert s == [s[0]] + s[1..];
    }
  }

  lemma {:induction false} RoutingAppend(mem: Memory, s: seq<Addr>, t: seq<Addr>, local: int)
    ensures LocalOf(mem, s + t, local) == LocalOf(mem, s, local) + LocalOf(mem, t, local)
    ensures ForeignOf(mem, s + t, local) == ForeignOf(mem, s, local) + ForeignOf(mem, t, local)
  {
    if s == [] {
      assert s + t == t;
    } else {
      assert (s + t)[0] == s[0] && (s + t)[1..] == s[1..] + t;
      RoutingAppend(mem, s[1..], t, local);
      var l, f := LocalOf(mem, s[1..], local), ForeignOf(mem, s[1..], local);
      var lt, ft := LocalOf(mem, t, local), ForeignOf(mem, t, local);
      assert LocalOf(mem, s[1..] + t, local) == l + lt;
      var own := StampedBy(mem, s[0], local);
      assert (if own then [s[0]] else []) + (l + lt) == ((if own then [s[0]] else []) + l) + lt;
      assert (if own then [] else [s[0]]) + (f + ft) == ((if own then [] else [s[0]]) + f) + ft;
    }
  }

  lemma RoutingOne(mem: Memory, s: seq<Addr>, n: nat, local: int)
    requires n < |s|
    ensures LocalOf(mem, s[..n + 1], local) == LocalOf(mem, s[..n],
                local) + (if StampedBy(mem, s[n], local) then [s[n]] else [])
    ensures ForeignOf(mem, s[..n + 1], local) == ForeignOf(mem, s[..n],
                local) + (if StampedBy(mem, s[n], local) then [] else [s[n]])
  {
    assert s[..n + 1] == s[..n] + [s[n]];
    RoutingAppend(mem, s[..n], [s[n]], local);
  }

  ghost function Flatten(lists: seq<seq<Addr>>, n: nat): seq<Addr>
    requires n <= |lists|
  {
    if n == 0 then [] else Flatten(lists, n - 1) + lists[n - 1]
  }

  class Cache {
    var local: int
    var mem: Memory
    const heads: array<Addr>
    const counts: array<nat>
    ghost var lists: seq<seq<Addr>>

    ghost predicate Valid()
      reads this, heads, counts
    {
      && heads.Length == CLASS_COUNT && counts.Length == CLASS_COUNT && |lists| == CLASS_COUNT
      && heads as object != counts
      && ClassesApart(lists)
      && (forall i :: 0 <= i < CLASS_COUNT ==> ClassOk(mem, heads[i], counts[i], lists[i], i, local))
    }

    /** The cache of a thread that has no runner yet. */
    constructor (memory: Memory)
      ensures Valid() && fresh(heads) && fresh(counts) && local == 0 && mem == memory
      ensures forall i :: 0 <= i < CLASS_COUNT ==> lists[i] == []
    {
      local, mem := 0, memory;
      heads := new Addr[CLASS_COUNT](_ => 0);
      counts := new nat[CLASS_COUNT](_ => 0);
      lists := seq(CLASS_COUNT, _ => []);
    }

    /** The thread's first allocation makes its runner. No run can belong to it yet, so
        none of the cached ones does. */
    method Attach(runner: int)
      requires Valid() && local == 0 && runner != 0
      requires forall i, p :: 0 <= i < CLASS_COUNT && p in lists[i] ==> p + STAMP in mem && mem[p + STAMP] != runner
      modifies `local
      ensures Valid() && local == runner
    {
      hide ListOk, ClassesApart;
      forall i | 0 <= i < CLASS_COUNT
        ensures ClassOk(mem, heads[i], counts[i], lists[i], i, runner)
      {
        StillForeign(mem, heads[i], counts[i], lists[i], i, local, runner);
      }
      local := runner;
    }

    /** The thread's memory changes elsewhere: users store, runners work. */
    method Elsewhere(memory: Memory)
      requires Valid() && Quiet(lists, mem, memory)
      modifies `mem
      ensures Valid() && mem == memory
    {
      hide ClassesApart, ClassOk, Quiet;
      forall i | 0 <= i < CLASS_COUNT
        ensures ClassOk(memory, heads[i], counts[i], lists[i], i, local)
      {
        QuietClass(mem, memory, heads[i], counts[i], lists, i, local);
      }
      mem := memory;
    }

    /** `_tls_push`: stamps the run with the owner its header names. */
    method Push(idx: nat, p: Addr)
      requires Valid() && idx < CLASS_COUNT && p > 0 && p + OWNER_WORD in mem
      requires Roomy(mem, p, idx)
      requires ApartFromAll(lists, p)
      requires |lists[idx]| < HIGH_WATERMARK + REFILL_BATCH - 1
      requires |lists[idx]| < HIGH_WATERMARK || mem[p + OWNER_WORD] == local
      requires mem[p + OWNER_WORD] != 0
      modifies `mem, `lists, heads, counts
      ensures Valid()
      ensures lists == old(lists)[idx := [p] + old(lists)[idx]]
      ensures mem == Pushed(old(mem), HeadOf(old(lists)[idx]), p)
    {
      HeadEntry(mem, heads[idx], counts[idx], lists[idx], idx, local);
      hide ClassOk, ClassesApart;
      ghost var m0 := mem;
      ClassPush(mem, heads[idx], counts[idx], lists[idx], idx, local, p);
      ApartPush(lists, idx, p);
      forall i | 0 <= i < CLASS_COUNT && i != idx
        ensures ClassOk(m0[p := heads[idx]][p + STAMP := m0[p + OWNER_WORD]], heads[i], counts[i], lists[i], i, local)
      {
        ClassFrame(m0, m0[p := heads[idx]][p + STAMP := m0[p + OWNER_WORD]], heads[i], counts[i], lists[i], i, local,
            p);
      }
      mem := mem[p := heads[idx]][p + STAMP := mem[p + OWNER_WORD]];
      heads[idx] := p;
      counts[idx] := counts[idx] + 1;
      lists := lists[idx := [p] + lists[idx]];
    }

    /** `_tls_pop_for_owner`: takes the first entry stamped `owner` out of the list, or
        answers null when there is none. */
    method PopForOwner(idx: nat, owner: int) returns (node: Addr, ghost k: int)
      requires Valid() && idx < CLASS_COUNT
      modifies `mem, `lists, heads, counts
      ensures Valid()
      ensures node == 0 ==> lists == old(lists) && mem == old(mem)
      ensures node == 0 ==> heads[..] == old(heads[..]) && counts[..] == old(counts[..])
      ensures node == 0 ==> NoneOwned(mem, lists[idx], owner)
      ensures node != 0 ==>
                && IsFirstOwned(old(mem), old(lists)[idx], k, owner) && node == old(lists)[idx][k]
                && lists == old(lists)[idx := Without(old(lists)[idx], k)]
                && node + OWNER_WORD in mem && mem[node + OWNER_WORD] == owner
                && Roomy(mem, node, idx)
                && ApartFromAll(lists, node) && node > 0
                && mem == Unhooked(old(mem), old(lists)[idx], k)
    {
      hide ClassesApart, ApartFromAll, ClassOk;
      ghost var s := lists[idx];
      Entries(mem, heads[idx], counts[idx], s, idx, local);
      k := 0;
      var prev := 0;
      node := heads[idx];
      while node != 0 && mem[node + STAMP] != owner
        invariant 0 <= k <= |s|
        invariant k < |s| ==> EntryOk(mem, s, k)
        invariant node == if k < |s| then s[k] else 0
        invariant prev == if k > 0 then s[k - 1] else 0
        invariant k > 0 ==> prev > 0
        invariant forall j :: 0 <= j < k ==> s[j] + STAMP in mem && mem[s[j] + STAMP] != owner
        decreases |s| - k
      {
        prev := node;
        node := mem[node];
        k := k + 1;
        assert k < |s| ==> EntryOk(mem, s, k);
      }
      if node == 0 {
        return;
      }
      RemoveKeeps(mem, heads[..], counts[..], lists, local, idx, k);
      if prev == 0 {
        heads[idx] := mem[node];
      } else {
        mem := mem[prev := mem[node]];
      }
      counts[idx] := counts[idx] - 1;
      lists := lists[idx := Without(s, k)];
      AllMeansValid();
    }

    /** `_tls_pop_any`: takes the head of the list. */
    method PopAny(idx: nat) returns (node: Addr)
      requires Valid() && idx < CLASS_COUNT
      modifies `lists, heads, counts
      ensures Valid()
      ensures node == 0 <==> old(lists)[idx] == []
      ensures node == 0 ==> lists == old(lists)
      ensures node != 0 ==> node == old(lists)[idx][0] && lists == old(lists)[idx := old(lists)[idx][1..]]
      ensures node != 0 ==> node + STAMP in mem && node + OWNER_WORD in mem
      ensures node != 0 ==> mem[node + STAMP] == mem[node + OWNER_WORD]
      ensures node != 0 ==> ApartFromAll(lists, node) && node > 0
    {
      hide ClassesApart, ApartFromAll, Spread, Foreign;
      ghost var s := lists[idx];
      HeadEntry(mem, heads[idx], counts[idx], s, idx, local);
      hide ClassOk;
      if heads[idx] == 0 {
        return 0;
      }
      RemoveKeeps(mem, heads[..], counts[..], lists, local, idx, 0);
      assert Without(s, 0) == s[1..];
      node := heads[idx];
      heads[idx] := mem[node];
      counts[idx] := counts[idx] - 1;
      lists := lists[idx := s[1..]];
      AllMeansValid();
    }

    /** `_tls_drain_class`: pops entries until `keep` remain. Those of the local runner
        are to be freed directly, the others pushed on their owners' remote stacks. */
    method DrainClass(idx: nat, keep: nat) returns (direct: seq<Addr>, remote: seq<Addr>)
      requires Valid() && idx < CLASS_COUNT
      modifies `lists, heads, counts
      ensures Valid()
      ensures var s := old(lists)[idx];
              var n := if |s| > keep then |s| - keep else 0;
              && lists == old(lists)[idx := s[n..]]
              && direct == LocalOf(mem, s[..n], local)
              && remote == ForeignOf(mem, s[..n], local)
    {
      hide ClassesApart, ClassOk;
      direct, remote := [], [];
      ghost var s, n := lists[idx], 0;
      CountIsLength(idx);
      while counts[idx] > keep
        invariant Valid() && 0 <= n <= |s| && counts[idx] == |s| - n
        invariant n == 0 || |s| - n >= keep
        invariant lists == old(lists)[idx := s[n..]]
        invariant direct == LocalOf(mem, s[..n], local) && remote == ForeignOf(mem, s[..n], local)
        decreases |s| - n
      {
        var node := PopAny(idx);
        RoutingOne(mem, s, n, local);
        if mem[node + STAMP] == local {
          direct := direct + [node];
        } else {
          remote := remote + [node];
        }
        n := n + 1;
        CountIsLength(idx);
      }
    }

    /** Drains every class. This is also what the destructor does at thread exit:
        every cached entry is routed, none is lost, and the cache is empty. */
    method DrainAll() returns (direct: seq<Addr>, remote: seq<Addr>)
      requires Valid()
      modifies `lists, heads, counts
      ensures Valid()
      ensures forall i :: 0 <= i < CLASS_COUNT ==> lists[i] == []
      ensures direct == LocalOf(mem, Flatten(old(lists), CLASS_COUNT), local)
      ensures remote == ForeignOf(mem, Flatten(old(lists), CLASS_COUNT), local)
      ensures multiset(direct) + multiset(remote) == multiset(Flatten(old(lists), CLASS_COUNT))
    {
      hide ClassesApart, ClassOk, LocalOf, ForeignOf;
      direct, remote := [], [];
      NothingRouted();
      for i := 0 to CLASS_COUNT
        invariant Valid()
        invariant forall j :: 0 <= j < CLASS_COUNT ==> lists[j] == if j < i then [] else old(lists)[j]
        invariant |old(lists)| == CLASS_COUNT
        invariant direct == LocalOf(mem, Flatten(old(lists), i), local)
        invariant remote == ForeignOf(mem, Flatten(old(lists), i), local)
      {
        ghost var s := lists[i];
        var d, r := DrainClass(i, 0);
        assert s[..|s|] == s && s[|s|..] == [];
        RoutingAppend(mem, Flatten(old(lists), i), s, local);
        direct, remote := direct + d, remote + r;
      }
      RoutingConserves(mem, Flatten(old(lists), CLASS_COUNT), local);
    }

    /** `_deallocate_to_tls_run_cache`: a class at its high watermark is first drained
        to the low one; then the run enters, stamped with its header's owner. */
    method DeallocateTo(p: Addr, bytes: nat) returns (direct: seq<Addr>, remote: seq<Addr>)
      requires Valid() && 0 < bytes <= CUTOFF
      requires p > 0 && p + OWNER_WORD in mem && mem[p + OWNER_WORD] != 0 && ApartFromAll(lists, p)
      requires p - HEADER_SIZE in mem && bytes <= PayloadAt(mem, p) && PayloadAt(mem, p) % QUANTUM == 0
      modifies `mem, `lists, heads, counts
      ensures Valid()
      ensures var idx := ClassIndex(bytes);
              && 0 <= idx < CLASS_COUNT
              && var s := old(lists)[idx];
                 var n := if |s| >= 32 then |s| - 16 else 0;
                 && lists == old(lists)[idx := [p] + s[n..]]
                 && direct == LocalOf(old(mem), s[..n], local)
                 && remote == ForeignOf(old(mem), s[..n], local)
                 && |lists[idx]| <= 32
                 && mem == Pushed(old(mem), HeadOf(s[n..]), p)
    {
      hide ClassesApart, ClassOk, ApartFromAll, Pushed;
      ClassFitsPayload(bytes, PayloadAt(mem, p));
      var idx := ClassIndex(bytes);
      direct, remote := [], [];
      ghost var s, lists0 := lists[idx], lists;
      CountIsLength(idx);
      assert s[0..] == s;
      if counts[idx] >= HIGH_WATERMARK {
        direct, remote := DrainClass(idx, LOW_WATERMARK);
        FewerApart(lists0, idx, |s| - LOW_WATERMARK, p);
      }
      Push(idx, p);
    }

    lemma NoOwnEntry(idx: nat)
      requires Valid() && idx < CLASS_COUNT && NoneOwned(mem, lists[idx], local)
      ensures |lists[idx]| <= HIGH_WATERMARK
    {
      AllForeign(mem, heads[idx], counts[idx], lists[idx], idx, local);
    }

    lemma NothingRouted()
      ensures LocalOf(mem, [], local) == [] && ForeignOf(mem, [], local) == []
    {
    }

    lemma CountIsLength(idx: nat)
      requires Valid() && idx < CLASS_COUNT
      ensures counts[idx] == |lists[idx]|
    {
      assert ClassOk(mem, heads[idx], counts[idx], lists[idx], idx, local);
    }

    lemma AllMeansValid()
      requires heads.Length == CLASS_COUNT && counts.Length == CLASS_COUNT && heads as object != counts
      requires AllClassesOk(mem, heads[..], counts[..], lists, local)
      ensures Valid()
    {
      forall i | 0 <= i < CLASS_COUNT
        ensures ClassOk(mem, heads[i], counts[i], lists[i], i, local)
      {
        assert ClassOk(mem, heads[..][i], counts[..][i], lists[i], i, local);
      }
    }
  }

  /** Link, stamp and owner word of the entry are kept, and the size that its header
      says; the flags in the header may change. */
  ghost predicate SameEntry(before: Memory, after: Memory, q: Addr) {
    && (forall a: Addr {:trigger after[a]} {:trigger a in after} ::
          (a == q || a == q + STAMP || a == q + OWNER_WORD) && a in before ==> a in after && after[a] == before[a])
    && (q - HEADER_SIZE in before ==> q - HEADER_SIZE in after && PayloadAt(after, q) == PayloadAt(before, q))
  }

  /** The words of the cached entries are kept. */
  ghost predicate Quiet(lists: seq<seq<Addr>>, before: Memory, after: Memory) {
    forall i, q {:trigger q in lists[i]} :: 0 <= i < |lists| && q in lists[i] ==> SameEntry(before, after, q)
  }

  lemma QuietClass(before: Memory, after: Memory, head: Addr, count: nat, lists: seq<seq<Addr>>, idx: nat, local: int)
    requires idx < |lists| && ClassOk(before, head, count, lists[idx], idx, local) && Quiet(lists, before, after)
    ensures ClassOk(after, head, count, lists[idx], idx, local)
  {
    var s := lists[idx];
    hide Spread;
    forall j: nat | j < |s|
      ensures EntryOk(after, s, j) && s[j] + STAMP in before && s[j] + STAMP in after
      ensures after[s[j] + STAMP] == before[s[j] + STAMP]
    {
      assert EntryOk(before, s, j) && s[j] in s && SameEntry(before, after, s[j]);
    }
    forall p: Addr | p in s
      ensures p + STAMP in before && p + STAMP in after && after[p + STAMP] == before[p + STAMP]
    {
      var j: nat :| j < |s| && s[j] == p;
      assert EntryOk(before, s, j);
    }
    ForeignFrame(before, after, s, local);
  }

  lemma StillForeign(mem: Memory, head: Addr, count: nat, s: seq<Addr>, idx: nat, local: int, runner: int)
    requires ClassOk(mem, head, count, s, idx, local) && local == 0
    requires forall p :: p in s ==> p + STAMP in mem && mem[p + STAMP] != runner
    ensures ClassOk(mem, head, count, s, idx, runner)
  {
    forall p: Addr | p in s
      ensures p + STAMP in mem && mem[p + STAMP] != local
    {
      var j: nat :| j < |s| && s[j] == p;
      assert EntryOk(mem, s, j);
    }
    ForeignAll(mem, s, local);
    ForeignBound(mem, s, runner);
  }

  function Empties(): seq<seq<Addr>> {
    seq(CLASS_COUNT, _ => [])
  }

  /** The run is an allocated one of the local runner, and none of the cached ones. */
  ghost predicate Usable(mem: Memory, lists: seq<seq<Addr>>, local: int, p: Addr) {
    p > 0 && p + OWNER_WORD in mem && mem[p + OWNER_WORD] == local && ApartFromAll(lists, p)
  }

  lemma OnlyFirst(mem: Memory, s: seq<Addr>, k: int, owner: int)
    requires IsFirstOwned(mem, s, k, owner)
    ensures !NoneOwned(mem, s, owner)
    ensures forall i: int :: IsFirstOwned(mem, s, i, owner) ==> i == k
  {
  }

  lemma NoFirst(mem: Memory, s: seq<Addr>, owner: int)
    requires NoneOwned(mem, s, owner)
    ensures forall i: int :: !IsFirstOwned(mem, s, i, owner)
  {
  }

  // With no own entry in it, a class holds foreign entries only, so at most 32.
  lemma AllForeign(mem: Memory, head: Addr, count: nat, s: seq<Addr>, idx: nat, local: int)
    requires ClassOk(mem, head, count, s, idx, local) && NoneOwned(mem, s, local)
    ensures |s| <= HIGH_WATERMARK
  {
    forall p: Addr | p in s
      ensures p + STAMP in mem && mem[p + STAMP] != local
    {
      var j :| 0 <= j < |s| && s[j] == p;
    }
    ForeignAll(mem, s, local);
  }

  // The entries of a class, one by one.
  lemma Entries(mem: Memory, head: Addr, count: nat, s: seq<Addr>, idx: nat, local: int)
    requires ClassOk(mem, head, count, s, idx, local)
    ensures head == (if s == [] then 0 else s[0])
    ensures forall j: nat {:trigger EntryOk(mem, s, j)} :: j < |s| ==> EntryOk(mem, s, j)
  {
  }

  // What the head word of a class says about its list.
  lemma HeadEntry(mem: Memory, head: Addr, count: nat, s: seq<Addr>, idx: nat, local: int)
    requires ClassOk(mem, head, count, s, idx, local)
    ensures head == 0 <==> s == []
    ensures s != [] ==> head == s[0] && EntryOk(mem, s, 0)
  {
    if s != [] {
      assert EntryOk(mem, s, 0);
    }
  }

  lemma FewerApart(lists: seq<seq<Addr>>, idx: nat, n: nat, p: Addr)
    requires idx < |lists| && n <= |lists[idx]| && ApartFromAll(lists, p)
    ensures ApartFromAll(lists[idx := lists[idx][n..]], p)
  {
    var after := lists[idx := lists[idx][n..]];
    forall i, q | 0 <= i < |after| && q in after[i]
      ensures Apart(p, q)
    {
      assert q in lists[i];
    }
  }

  ghost predicate NoneOwned(mem: Memory, s: seq<Addr>, owner: int) {
    forall j :: 0 <= j < |s| ==> s[j] + STAMP in mem && mem[s[j] + STAMP] != owner
  }

  /** Entry k is the first one stamped `owner`. */
  ghost predicate IsFirstOwned(mem: Memory, s: seq<Addr>, k: int, owner: int) {
    && 0 <= k < |s|
    && s[k] + STAMP in mem && mem[s[k] + STAMP] == owner
    && forall j :: 0 <= j < k ==> s[j] + STAMP in mem && mem[s[j] + STAMP] != owner
  }

  ghost predicate AllClassesOk(mem: Memory, heads: seq<Addr>, counts: seq<nat>, lists: seq<seq<Addr>>, local: int) {
    && |heads| == |counts| == |lists| == CLASS_COUNT
    && ClassesApart(lists)
    && (forall i :: 0 <= i < CLASS_COUNT ==> ClassOk(mem, heads[i], counts[i], lists[i], i, local))
  }

  lemma ClassRemove(mem: Memory, head: Addr, count: nat, s: seq<Addr>, idx: nat, local: int, k: nat)
    requires ClassOk(mem, head, count, s, idx, local) && k < |s|
    ensures EntryOk(mem, s, k) && count > 0
    ensures var head' := if k == 0 then mem[s[k]] else head;
            var mem' := if k == 0 then mem else mem[s[k - 1] := mem[s[k]]];
            ClassOk(mem', head', count - 1, Without(s, k), idx, local)
    ensures forall q :: q in Without(s, k) ==> q in s && q != s[k]
  {
    hide Spread, Apart;
    ListRemove(mem, head, s, k);
    ForeignWithout(mem, s, local, k);
    var mem' := if k == 0 then mem else mem[s[k - 1] := mem[s[k]]];
    LinkKeepsForeign(mem, mem', head, s, Without(s, k), local, k);
    LinkKeepsRoom(mem, mem', s, Without(s, k), idx, k);
  }

  // ... and every header.
  lemma LinkKeepsRoom(mem: Memory, mem': Memory, s: seq<Addr>, t: seq<Addr>, idx: nat, k: nat)
    requires Spread(s) && k < |s| && s[k] in mem && mem' == if k == 0 then mem else mem[s[k - 1] := mem[s[k]]]
    requires forall q :: q in s ==> Roomy(mem, q, idx)
    requires forall q :: q in t ==> q in s
    ensures forall q :: q in t ==> Roomy(mem', q, idx)
  {
    forall q: Addr | q in t
      ensures Roomy(mem', q, idx)
    {
      var j :| 0 <= j < |s| && s[j] == q;
      assert Roomy(mem, q, idx);
      assert k > 0 && j != k - 1 ==> Apart(s[k - 1], s[j]);
    }
  }

  // A link write leaves every stamp, so the count of foreign entries, as it is.
  lemma LinkKeepsForeign(mem: Memory, mem': Memory, head: Addr, s: seq<Addr>, t: seq<Addr>, local: int, k: nat)
    requires ListOk(mem, head, s) && k < |s|
    requires EntryOk(mem, s, k) && mem' == if k == 0 then mem else mem[s[k - 1] := mem[s[k]]]
    requires forall q :: q in t ==> q in s
    ensures Foreign(mem', t, local) == Foreign(mem, t, local)
  {
    forall q: Addr | q in t
      ensures q + STAMP in mem && q + STAMP in mem' && mem'[q + STAMP] == mem[q + STAMP]
    {
      var j :| 0 <= j < |s| && s[j] == q;
      assert EntryOk(mem, s, j);
      assert k > 0 && j != k - 1 ==> Apart(s[k - 1], s[j]);
    }
    ForeignFrame(mem, mem', t, local);
  }

  lemma RemoveKeeps(mem: Memory, heads: seq<Addr>, counts: seq<nat>, lists: seq<seq<Addr>>, local: int, idx: nat,
                    k: nat)
    requires AllClassesOk(mem, heads, counts, lists, local) && idx < CLASS_COUNT && k < |lists[idx]|
    ensures EntryOk(mem, lists[idx], k) && counts[idx] > 0
    ensures var s := lists[idx];
            var heads' := if k == 0 then heads[idx := mem[s[k]]] else heads;
            var mem' := if k == 0 then mem else mem[s[k - 1] := mem[s[k]]];
            && AllClassesOk(mem', heads', counts[idx := counts[idx] - 1], lists[idx := Without(s, k)], local)
            && s[k] + OWNER_WORD in mem' && mem'[s[k] + OWNER_WORD] == mem[s[k] + STAMP]
            && ApartFromAll(lists[idx := Without(s, k)], s[k])
            && Roomy(mem', s[k], idx) && s[k] > 0
    ensures forall q :: q in Without(lists[idx], k) ==> q in lists[idx] && q != lists[idx][k]
  {
    var s := lists[idx];
    assert s[k] in s;
    assert k > 0 ==> s[k - 1] in s;
    ClassRemove(mem, heads[idx], counts[idx], s, idx, local, k);
    ApartFewer(lists, idx, Without(s, k));
    var mem' := if k == 0 then mem else mem[s[k - 1] := mem[s[k]]];
    assert k > 0 ==> Apart(s[k - 1], s[k]);
    forall i | 0 <= i < CLASS_COUNT && i != idx
      ensures ClassOk(mem', heads[i], counts[i], lists[i], i, local)
    {
      if k > 0 {
        ClassFrame(mem, mem', heads[i], counts[i], lists[i], i, local, s[k - 1]);
      }
    }
    var after := lists[idx := Without(s, k)];
    forall i, q | 0 <= i < |after| && q in after[i]
      ensures Apart(s[k], q)
    {
      if i == idx {
        var j :| 0 <= j < |s| && s[j] == q;
        assert j != k;
      }
    }
  }
}
