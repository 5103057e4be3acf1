/** The intrusive doubly linked lists of free runs, one per size bin, whose link
    words lie in the payload of the free runs themselves. */
module FreeLists {
  import opened Words
  import opened SizeClasses
  import opened Tiling
  import opened CanonicalForm

  /** Memory as words stored under their byte address. */
  type Memory = map<Addr, int>

  // Offsets of the link words from the header of a free run.
  const NEXT: int := HEADER_SIZE
  const PREV: int := HEADER_SIZE + 8

  ghost predicate NodeOk(mem: Memory, s: seq<Addr>, j: nat)
    requires j < |s|
  {
    && s[j] > 0 && s[j] + NEXT in mem && s[j] + PREV in mem
    && mem[s[j] + NEXT] == (if j + 1 < |s| then s[j + 1] else 0)
    && mem[s[j] + PREV] == (if j > 0 then s[j - 1] else 0)
  }

  /** From `head`, the links spell exactly the list `s`. */
  ghost predicate Dll(mem: Memory, head: Addr, s: seq<Addr>) {
    && head == (if s == [] then 0 else s[0])
    && (forall j: nat {:trigger NodeOk(mem, s, j)} :: j < |s| ==> NodeOk(mem, s, j))
    && Distinct(s)
  }

  /** No two of the runs are close enough for their link words to meet. */
  ghost predicate Spaced(linked: map<Addr, nat>) {
    forall a, b :: a in linked && b in linked && a < b ==> a + MIN_RUN <= b
  }

  ghost predicate SizesOk(linked: map<Addr, nat>) {
    forall h :: h in linked ==> h > 0 && LegalRunSize(linked[h]) && IsWord(linked[h])
  }

  /** The bins index exactly the runs of `linked`: each once, in the bin of its
      size, and nothing else. */
  ghost predicate BinsOk(mem: Memory, bins: seq<Addr>, lists: seq<seq<Addr>>, linked: map<Addr, nat>) {
    && |bins| == BIN_COUNT && |lists| == BIN_COUNT
    && (forall i :: 0 <= i < BIN_COUNT ==> Dll(mem, bins[i], lists[i]))
    && (forall h :: h in linked ==> 0 <= BinIndex(linked[h]) < BIN_COUNT && h in lists[BinIndex(linked[h])])
    && (forall i, h :: 0 <= i < BIN_COUNT && h in lists[i] ==> h in linked && BinIndex(linked[h]) == i)
    && Spaced(linked) && SizesOk(linked)
  }

  /** Between two memories only link words of the runs `hs` differ. */
  ghost predicate OnlyLinks(before: Memory, after: Memory, hs: set<Addr>) {
    && after.Keys == before.Keys
    && forall a {:trigger after[a]} :: a in before && a - NEXT !in hs && a - PREV !in hs ==> after[a] == before[a]
  }

  lemma DllFrame(before: Memory, after: Memory, head: Addr, s: seq<Addr>)
    requires Dll(before, head, s)
    requires forall x :: x in s && x + NEXT in before && x + PREV in before ==>
               && x + NEXT in after && x + PREV in after
               && after[x + NEXT] == before[x + NEXT] && after[x + PREV] == before[x + PREV]
    ensures Dll(after, head, s)
  {
    forall j: nat | j < |s|
      ensures NodeOk(after, s, j)
    {
      assert NodeOk(before, s, j) && s[j] in s;
    }
  }

  // ---------- pushing at the head ----------

  /** The words `_link_free` writes for `h`, given the current head of its bin. */
  function PushWords(mem: Memory, head: Addr, h: Addr): Memory {
    var m := mem[h + PREV := 0][h + NEXT := head];
    if head != 0 then m[head + PREV := h] else m
  }

  ghost predicate SpacedList(s: seq<Addr>) {
    forall x, y :: x in s && y in s && x < y ==> x + MIN_RUN <= y
  }

  lemma DllPush(mem: Memory, head: Addr, s: seq<Addr>, h: Addr)
    requires Dll(mem, head, s) && h > 0 && h !in s
    requires SpacedList([h] + s)
    ensures Dll(PushWords(mem, head, h), h, [h] + s)
  {
    var after := PushWords(mem, head, h);
    var t := [h] + s;
    forall j: nat | j < |t|
      ensures NodeOk(after, t, j)
    {
      assert t[j] in t && h in t;
      assert s != [] ==> t[1] == s[0] && t[1] in t;
      if j > 0 {
        assert NodeOk(mem, s, j - 1) && t[j] == s[j - 1];
        assert j + 1 < |t| ==> t[j + 1] == s[j];
        if j > 1 {
          assert s[0] != s[j - 1];
        }
      }
    }
    forall i, j | 0 <= i < j < |t|
      ensures t[i] != t[j]
    {
      assert t[j] == s[j - 1];
    }
  }

  // ---------- removing anywhere ----------

  /** The words `_unlink_free` writes for `h`. */
  function RemoveWords(mem: Memory, h: Addr): Memory
    requires h + NEXT in mem && h + PREV in mem
  {
    var next, prev := mem[h + NEXT], mem[h + PREV];
    var m := if prev != 0 then mem[prev + NEXT := next] else mem;
    if next != 0 then m[next + PREV := prev] else m
  }

  lemma DllRemove(mem: Memory, head: Addr, s: seq<Addr>, k: nat)
    requires Dll(mem, head, s) && k < |s| && SpacedList(s)
    ensures NodeOk(mem, s, k)
    ensures Dll(RemoveWords(mem, s[k]), if mem[s[k] + PREV] == 0 then mem[s[k] + NEXT] else head, s[..k] + s[k + 1..])
    ensures mem[s[k] + PREV] == 0 <==> head == s[k]
  {
    var h := s[k];
    var t := s[..k] + s[k + 1..];
    assert NodeOk(mem, s, k);
    if k > 0 {
      assert NodeOk(mem, s, k - 1);
    }
    if k + 1 < |s| {
      assert NodeOk(mem, s, k + 1);
    }
    var after := RemoveWords(mem, h);
    forall j: nat | j < |t|
      ensures NodeOk(after, t, j)
    {
      var i := if j < k then j else j + 1;
      assert t[j] == s[i] && NodeOk(mem, s, i) && s[i] in s;
      RemoveNode(mem, s, k, i);
    }
  }

  // What removal of `s[k]` leaves in the link words of another member.
  lemma RemoveNode(mem: Memory, s: seq<Addr>, k: nat, i: nat)
    requires k < |s| && i < |s| && i != k && SpacedList(s) && Distinct(s)
    requires NodeOk(mem, s, k) && NodeOk(mem, s, i)
    requires k > 0 ==> NodeOk(mem, s, k - 1)
    requires k + 1 < |s| ==> NodeOk(mem, s, k + 1)
    ensures var after := RemoveWords(mem, s[k]);
            && s[i] + NEXT in after && s[i] + PREV in after
            && after[s[i] + NEXT] == (if i + 1 == k then mem[s[k] + NEXT] else mem[s[i] + NEXT])
            && after[s[i] + PREV] == (if i == k + 1 then mem[s[k] + PREV] else mem[s[i] + PREV])
  {
    assert s[i] in s;
    if k > 0 {
      assert s[k - 1] in s;
    }
    if k + 1 < |s| {
      assert s[k + 1] in s;
    }
  }

  // ---------- the whole index ----------

  lemma BinSpaced(mem: Memory, bins: seq<Addr>, lists: seq<seq<Addr>>, linked: map<Addr, nat>, i: nat)
    requires BinsOk(mem, bins, lists, linked) && i < BIN_COUNT
    ensures SpacedList(lists[i])
    ensures Dll(mem, bins[i], lists[i])
  {
    forall x, y | x in lists[i] && y in lists[i] && x < y
      ensures x + MIN_RUN <= y
    {
      assert x in linked && y in linked;
    }
  }

  lemma BinsSpaced(mem: Memory, bins: seq<Addr>, lists: seq<seq<Addr>>, linked: map<Addr, nat>)
    requires BinsOk(mem, bins, lists, linked)
    ensures Spaced(linked) && SizesOk(linked)
  {
  }

  /** Linking a run at the head of its bin indexes exactly one more run. */
  lemma LinkKeeps(mem: Memory, bins: seq<Addr>, lists: seq<seq<Addr>>, linked: map<Addr, nat>, h: Addr, size: nat)
    requires BinsOk(mem, bins, lists, linked) && h !in linked
    requires Spaced(linked[h := size]) && SizesOk(linked[h := size])
    requires 0 <= BinIndex(size) < BIN_COUNT
    requires h + NEXT in mem && h + PREV in mem
    ensures var i := BinIndex(size);
            BinsOk(PushWords(mem, bins[i], h), bins[i := h], lists[i := [h] + lists[i]], linked[h := size])
    ensures OnlyLinks(mem, PushWords(mem, bins[BinIndex(size)], h), linked.Keys + {h})
    ensures bins[BinIndex(size)] != 0 ==> bins[BinIndex(size)] + PREV in mem
  {
    hide BinIndex, NodeOk, Dll, SpacedList, SizesOk, Spaced, Distinct, PushWords, OnlyLinks;
    var i := BinIndex(size);
    var after := PushWords(mem, bins[i], h);
    PushSpaced(lists[i], linked, h, size);
    DllPush(mem, bins[i], lists[i], h);
    HeadIndexed(mem, bins, lists, linked, i);
    PushOnlyLinks(mem, linked, bins[i], h);
    forall k | 0 <= k < BIN_COUNT && k != i
      ensures Dll(after, bins[k], lists[k])
    {
      PushElsewhere(mem, bins, lists, linked, h, size, i, k);
    }
    assert forall k, x :: 0 <= k < BIN_COUNT && x in lists[i := [h] + lists[i]][k] ==> x == h || x in lists[k];
  }

  lemma PushSpaced(s: seq<Addr>, linked: map<Addr, nat>, h: Addr, size: nat)
    requires Spaced(linked[h := size]) && SizesOk(linked[h := size]) && forall x :: x in s ==> x in linked
    requires h !in linked
    ensures SpacedList([h] + s) && h > 0 && h !in s
  {
    var linked' := linked[h := size];
    assert h in linked';
    forall x, y | x in [h] + s && y in [h] + s && x < y
      ensures x + MIN_RUN <= y
    {
      assert x in linked' && y in linked';
    }
  }

  lemma HeadIndexed(mem: Memory, bins: seq<Addr>, lists: seq<seq<Addr>>, linked: map<Addr, nat>, i: nat)
    requires BinsOk(mem, bins, lists, linked) && i < BIN_COUNT
    ensures bins[i] != 0 ==> bins[i] in lists[i] && bins[i] in linked && bins[i] + PREV in mem && bins[i] + NEXT in mem
  {
    hide BinIndex, NodeOk, Spaced, SizesOk, Distinct;
    if bins[i] != 0 {
      HeadLinks(mem, bins[i], lists[i]);
    }
  }

  lemma PushOnlyLinks(mem: Memory, linked: map<Addr, nat>, head: Addr, h: Addr)
    requires h + NEXT in mem && h + PREV in mem && (head != 0 ==> head in linked && head + PREV in mem)
    ensures OnlyLinks(mem, PushWords(mem, head, h), linked.Keys + {h})
  {
  }

  lemma EmptyHasNoZero(mem: Memory, bins: seq<Addr>, lists: seq<seq<Addr>>, linked: map<Addr, nat>, k: nat)
    requires BinsOk(mem, bins, lists, linked) && k < BIN_COUNT
    ensures 0 !in lists[k]
  {
    hide BinIndex, Spaced, SizesOk, Dll, LegalRunSize;
    BinSpaced(mem, bins, lists, linked, k);
    NoZero(mem, bins[k], lists[k]);
  }

  lemma PushElsewhere(mem: Memory, bins: seq<Addr>, lists: seq<seq<Addr>>, linked: map<Addr, nat>, h: Addr, size: nat,
                      i: nat, k: nat)
    requires BinsOk(mem, bins, lists, linked) && h > 0 && h !in linked && Spaced(linked[h := size])
    requires i < BIN_COUNT && k < BIN_COUNT && k != i && h + NEXT in mem && h + PREV in mem
    requires bins[i] != 0 ==> bins[i] in lists[i]
    ensures Dll(PushWords(mem, bins[i], h), bins[k], lists[k])
  {
    hide BinIndex, LegalRunSize, SizesOk, Distinct;
    HeadIndexed(mem, bins, lists, linked, i);
    EmptyHasNoZero(mem, bins, lists, linked, k);
    OtherBin(mem, PushWords(mem, bins[i], h), linked[h := size], lists[k], bins[i], h);
    DllFrame(mem, PushWords(mem, bins[i], h), bins[k], lists[k]);
  }

  lemma HeadLinks(mem: Memory, head: Addr, s: seq<Addr>)
    requires Dll(mem, head, s) && head != 0
    ensures head in s && s[0] == head && head + NEXT in mem && head + PREV in mem
  {
    assert NodeOk(mem, s, 0);
  }

  // Writes to link words of runs outside `s` leave the link words of `s` alone.
  lemma OtherBin(mem: Memory, after: Memory, linked: map<Addr, nat>, s: seq<Addr>, p: Addr, q: Addr)
    requires Spaced(linked)
    requires forall x :: x in s ==> x in linked
    requires p == 0 || p in linked
    requires q == 0 || q in linked
    requires p !in s && q !in s
    requires mem.Keys <= after.Keys
    requires forall a {:trigger after[a]} :: a in mem && (p == 0 || (a != p + NEXT && a != p + PREV)) && (q == 0 || (a != q + NEXT && a != q + PREV)) ==> after[a] == mem[a]
    ensures forall x :: x in s && x + NEXT in mem && x + PREV in mem ==>
              && x + NEXT in after && x + PREV in after
              && after[x + NEXT] == mem[x + NEXT] && after[x + PREV] == mem[x + PREV]
  {
  }

  /** Unlinking removes exactly one run from the index, wherever it stands. */
  lemma UnlinkKeeps(mem: Memory, bins: seq<Addr>, lists: seq<seq<Addr>>, linked: map<Addr, nat>, h: Addr, k: nat)
    requires BinsOk(mem, bins, lists, linked) && h in linked
    requires 0 <= BinIndex(linked[h]) < BIN_COUNT
    requires k < |lists[BinIndex(linked[h])]| && lists[BinIndex(linked[h])][k] == h
    requires Links(mem, linked, h)
    ensures var i := BinIndex(linked[h]);
            var bins' := if mem[h + PREV] == 0 then bins[i := mem[h + NEXT]] else bins;
            BinsOk(RemoveWords(mem, h), bins', lists[i := lists[i][..k] + lists[i][k + 1..]], linked - {h})
    ensures OnlyLinks(mem, RemoveWords(mem, h), linked.Keys)
  {
    hide BinIndex, NodeOk, Dll, SpacedList, SizesOk, Spaced, Distinct, RemoveWords, OnlyLinks;
    var i := BinIndex(linked[h]);
    var s := lists[i];
    FewerRuns(linked, h);
    RemoveOnlyLinks(mem, linked, h);
    BinSpaced(mem, bins, lists, linked, i);
    DllRemove(mem, bins[i], s, k);
    LinkTargets(mem, bins[i], s, k);
    var next, prev := mem[h + NEXT], mem[h + PREV];
    var after := RemoveWords(mem, h);
    forall b | 0 <= b < BIN_COUNT && b != i
      ensures Dll(after, bins[b], lists[b])
    {
      RemoveElsewhere(mem, bins, lists, linked, h, b);
    }
    RemovedList(s, k);
  }

  lemma FewerRuns(linked: map<Addr, nat>, h: Addr)
    requires Spaced(linked) && SizesOk(linked)
    ensures Spaced(linked - {h}) && SizesOk(linked - {h})
  {
  }

  lemma RemoveOnlyLinks(mem: Memory, linked: map<Addr, nat>, h: Addr)
    requires Links(mem, linked, h)
    ensures OnlyLinks(mem, RemoveWords(mem, h), linked.Keys)
  {
  }

  lemma RemoveElsewhere(mem: Memory, bins: seq<Addr>, lists: seq<seq<Addr>>, linked: map<Addr, nat>, h: Addr, b: nat)
    requires BinsOk(mem, bins, lists, linked) && h in linked && b < BIN_COUNT && b != BinIndex(linked[h])
    requires Links(mem, linked, h)
    requires mem[h + PREV] != 0 ==> mem[h + PREV] in lists[BinIndex(linked[h])]
    requires mem[h + NEXT] != 0 ==> mem[h + NEXT] in lists[BinIndex(linked[h])]
    ensures Dll(RemoveWords(mem, h), bins[b], lists[b])
  {
    hide BinIndex, LegalRunSize;
    var next, prev := mem[h + NEXT], mem[h + PREV];
    NoZero(mem, bins[b], lists[b]);
    OtherBin(mem, RemoveWords(mem, h), linked, lists[b], prev, next);
    DllFrame(mem, RemoveWords(mem, h), bins[b], lists[b]);
  }

  lemma NoZero(mem: Memory, head: Addr, s: seq<Addr>)
    requires Dll(mem, head, s)
    ensures 0 !in s
  {
    forall j | 0 <= j < |s|
      ensures s[j] != 0
    {
      assert NodeOk(mem, s, j);
    }
  }

  /** The link words of an indexed run lead to indexed runs or nowhere. */
  ghost predicate Links(mem: Memory, linked: map<Addr, nat>, h: Addr) {
    && h + NEXT in mem && h + PREV in mem
    && (mem[h + PREV] != 0 ==> mem[h + PREV] + NEXT in mem && mem[h + PREV] in linked)
    && (mem[h + NEXT] != 0 ==> mem[h + NEXT] + PREV in mem && mem[h + NEXT] in linked)
  }

  lemma LinkTargets(mem: Memory, head: Addr, s: seq<Addr>, k: nat)
    requires Dll(mem, head, s) && k < |s|
    ensures s[k] + NEXT in mem && s[k] + PREV in mem
    ensures mem[s[k] + PREV] != 0 ==> mem[s[k] + PREV] in s && mem[s[k] + PREV] + NEXT in mem
    ensures mem[s[k] + NEXT] != 0 ==> mem[s[k] + NEXT] in s && mem[s[k] + NEXT] + PREV in mem
    ensures mem[s[k] + PREV] != s[k] && mem[s[k] + NEXT] != s[k]
  {
    assert NodeOk(mem, s, k);
    if k > 0 {
      assert NodeOk(mem, s, k - 1);
    }
    if k + 1 < |s| {
      assert NodeOk(mem, s, k + 1);
    }
  }

  /** Every indexed run stands at one place of one list, with sound links. */
  lemma Locate(mem: Memory, bins: seq<Addr>, lists: seq<seq<Addr>>, linked: map<Addr, nat>, h: Addr) returns (k: nat)
    requires BinsOk(mem, bins, lists, linked) && h in linked
    ensures 0 <= BinIndex(linked[h]) < BIN_COUNT && |lists| == BIN_COUNT
    ensures k < |lists[BinIndex(linked[h])]| && lists[BinIndex(linked[h])][k] == h
    ensures Links(mem, linked, h)
    ensures Away(mem[h + PREV], h) && Away(mem[h + NEXT], h)
    ensures |bins| == BIN_COUNT && bins[BinIndex(linked[h])] != 0
  {
    hide BinIndex, NodeOk;
    var i := BinIndex(linked[h]);
    k :| 0 <= k < |lists[i]| && lists[i][k] == h;
    LinkTargets(mem, bins[i], lists[i], k);
    NoZero(mem, bins[i], lists[i]);
  }

  // `a` is null or far enough from `h` for their link words not to meet.
  ghost predicate Away(a: Addr, h: Addr) {
    a == 0 || a + MIN_RUN <= h || h + MIN_RUN <= a
  }

  lemma RemovedList(s: seq<Addr>, k: nat)
    requires k < |s| && Distinct(s)
    ensures forall x :: x in s[..k] + s[k + 1..] <==> x in s && x != s[k]
  {
    var t := s[..k] + s[k + 1..];
    forall x | x in s && x != s[k]
      ensures x in t
    {
      var j :| 0 <= j < |s| && s[j] == x;
      assert t[if j < k then j else j - 1] == x;
    }
  }
}
