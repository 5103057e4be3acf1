/** Singly linked lists threaded through the first word of their elements: the free
    lists and remote stacks of pools, and the remote stacks of runners. */
module Chains {
  type Addr = int

  ghost predicate LinkOk(mem: map<Addr, int>, s: seq<Addr>, j: nat)
    requires j < |s|
  {
    s[j] in mem && s[j] != 0 && mem[s[j]] == if j + 1 < |s| then s[j + 1] else 0
  }

  /** From `head`, the links spell exactly the list `s` and then end; no element is met
      twice. */
  ghost predicate Chain(mem: map<Addr, int>, head: Addr, s: seq<Addr>) {
    && head == (if s == [] then 0 else s[0])
    && (forall j: nat {:trigger LinkOk(mem, s, j)} :: j < |s| ==> LinkOk(mem, s, j))
    && (forall i, j :: 0 <= i < j < |s| ==> s[i] != s[j])
  }

  // A write outside the list leaves the list as it is.
  lemma ChainFrame(before: map<Addr, int>, after: map<Addr, int>, head: Addr, s: seq<Addr>)
    requires Chain(before, head, s)
    requires forall p :: p in s && p in before ==> p in after && after[p] == before[p]
    ensures Chain(after, head, s)
  {
    forall j: nat | j < |s|
      ensures LinkOk(after, s, j)
    {
      assert LinkOk(before, s, j) && s[j] in s;
    }
  }

  // An element whose link already holds the head extends the list.
  lemma ChainExtend(mem: map<Addr, int>, head: Addr, s: seq<Addr>, p: Addr)
    requires Chain(mem, head, s) && p !in s && p in mem && p != 0 && mem[p] == head
    ensures Chain(mem, p, [p] + s)
  {
    var t := [p] + s;
    forall j: nat | j < |t|
      ensures LinkOk(mem, t, j)
    {
      if j > 0 {
        assert LinkOk(mem, s, j - 1);
      }
    }
  }

  lemma ChainPush(mem: map<Addr, int>, head: Addr, s: seq<Addr>, p: Addr)
    requires Chain(mem, head, s) && p !in s && p != 0
    ensures Chain(mem[p := head], p, [p] + s)
  {
    ChainFrame(mem, mem[p := head], head, s);
    ChainExtend(mem[p := head], head, s, p);
  }

  // Walking one link on.
  lemma ChainPop(mem: map<Addr, int>, head: Addr, s: seq<Addr>)
    requires Chain(mem, head, s)
    ensures head == 0 <==> s == []
    ensures forall i, j :: 0 <= i < j < |s| ==> s[i] != s[j]
    ensures head != 0 ==>
              && s[0] == head && head in mem && Chain(mem, mem[head], s[1..])
              && (forall p: Addr :: p in s[1..] <==> p in s && p != head)
  {
    if s != [] {
      assert LinkOk(mem, s, 0);
      var t := s[1..];
      forall j: nat | j < |t|
        ensures LinkOk(mem, t, j)
      {
        assert LinkOk(mem, s, j + 1);
      }
      forall p | p in s && p != head
        ensures p in t
      {
        var i :| 0 <= i < |s| && s[i] == p;
        assert t[i - 1] == p;
      }
    }
  }
}
