/** Machine words of the modelled 64-bit target, and the overflow-checked
    arithmetic the allocator relies on. Numbers are unbounded in Dafny, so the
    word size appears explicitly wherever it matters. */
module Words {
  datatype Option<+T> = None | Some(value: T)

  // One more than the largest value of a size_t.
  const WORD_LIMIT: nat := 0x1_0000_0000_0000_0000
  const MAX_WORD: nat := WORD_LIMIT - 1

  predicate IsWord(n: int) {
    0 <= n < WORD_LIMIT
  }

  function Max(a: nat, b: nat): nat {
    if a < b then b else a
  }

  /** Addition that reports overflow instead of wrapping. */
  function CheckedAdd(lhs: nat, rhs: nat): (r: Option<nat>)
    requires IsWord(lhs) && IsWord(rhs)
    ensures r.Some? <==> IsWord(lhs + rhs)
    ensures r.Some? ==> r.value == lhs + rhs
  {
    if lhs > MAX_WORD - rhs then None else Some(lhs + rhs)
  }

  lemma QuotientBound(lhs: nat, rhs: nat, limit: nat)
    requires rhs > 0
    ensures lhs <= limit / rhs <==> lhs * rhs <= limit
  {
    var q := limit / rhs;
    assert q * rhs <= limit < (q + 1) * rhs;
    if lhs <= q {
      assert lhs * rhs <= q * rhs;
    } else {
      assert (q + 1) * rhs <= lhs * rhs;
    }
  }

  /** Multiplication that reports overflow; the test divides, so nothing wraps. */
  function CheckedMul(lhs: nat, rhs: nat): (r: Option<nat>)
    requires IsWord(lhs) && IsWord(rhs)
    ensures r.Some? <==> IsWord(lhs * rhs)
    ensures r.Some? ==> r.value == lhs * rhs
  {
    if lhs == 0 || rhs == 0 then
      Some(0)
    else
      QuotientBound(lhs, rhs, MAX_WORD);
      if lhs > MAX_WORD / rhs then None else Some(lhs * rhs)
  }

  ghost predicate LeastMultipleFrom(n: int, value: nat, multiple: nat)
    requires multiple > 0
  {
    n % multiple == 0 && value <= n < value + multiple
  }

  lemma RoundedUp(value: nat, multiple: nat)
    requires multiple > 0
    ensures value % multiple == 0 ==> LeastMultipleFrom(value, value, multiple)
    ensures value % multiple != 0 ==> LeastMultipleFrom(value + (multiple - value % multiple), value, multiple)
  {
    if value % multiple != 0 {
      var q := value / multiple;
      var up := value + (multiple - value % multiple);
      assert up == (q + 1) * multiple + 0;
      ModOfProduct(q + 1, 0, multiple);
    }
  }

  lemma MulMonotone(a: int, b: int, d: nat)
    ensures a <= b ==> a * d <= b * d
  {
  }

  lemma ModOfProduct(q: int, r: nat, d: nat)
    requires r < d
    ensures (q * d + r) % d == r
    ensures (q * d + r) / d == q
  {
    var n := q * d + r;
    var k, m := n / d, n % d;
    assert n == k * d + m;
    MulMonotone(k + 1, q, d);
    MulMonotone(q + 1, k, d);
  }

  /** Rounding up to a multiple: the least multiple not below `value`, or None
      for a zero multiple and when that multiple is not a word. */
  function CheckedRoundToMultipleOf(value: nat, multiple: nat): (r: Option<nat>)
    requires IsWord(value) && IsWord(multiple)
    ensures r.None? <==> multiple == 0 || forall n :: LeastMultipleFrom(n, value, multiple) ==> !IsWord(n)
    ensures r.Some? ==> LeastMultipleFrom(r.value, value, multiple) && IsWord(r.value)
  {
    if multiple == 0 then
      None
    else
      RoundedUp(value, multiple);
      var rem := value % multiple;
      if rem == 0 then Some(value) else
        LeastMultipleUnique(value + (multiple - rem), value, multiple);
        CheckedAdd(value, multiple - rem)
  }

  lemma LeastMultipleUnique(n: nat, value: nat, multiple: nat)
    requires multiple > 0 && LeastMultipleFrom(n, value, multiple)
    ensures forall k :: LeastMultipleFrom(k, value, multiple) ==> k == n
  {
    forall k | LeastMultipleFrom(k, value, multiple)
      ensures k == n
    {
      var a, b := k / multiple, n / multiple;
      assert k == a * multiple && n == b * multiple;
      MulMonotone(a + 1, b, multiple);
      MulMonotone(b + 1, a, multiple);
    }
  }
}
