/** The multiword bitmask of non-empty bins and the search for its least set bit.
    Words are naturals below 2^64; each bitwise operator is written out on the
    binary digits of its operand. */
module BinMask {
  import opened Words
  import opened SizeClasses

  type Word64 = w: nat | w < WORD_LIMIT

  const WORD_BITS: nat := 64
  const WORD_COUNT: nat := (BIN_COUNT + WORD_BITS - 1) / WORD_BITS

  function Pow2(n: nat): nat {
    if n == 0 then 1 else 2 * Pow2(n - 1)
  }

  lemma Pow2Of64()
    ensures Pow2(WORD_BITS) == WORD_LIMIT
  {
    assert Pow2(8) == 0x100;
    assert Pow2(16) == 0x1_0000;
    assert Pow2(24) == 0x100_0000;
    assert Pow2(32) == 0x1_0000_0000;
    assert Pow2(40) == 0x100_0000_0000;
    assert Pow2(48) == 0x1_0000_0000_0000;
    assert Pow2(56) == 0x100_0000_0000_0000;
  }

  lemma {:induction false} Pow2Positive(e: nat)
    ensures Pow2(e) >= 1
  {
    if e == 0 {
    } else {
      Pow2Positive(e - 1);
    }
  }

  lemma {:induction false} Pow2Monotone(a: nat, b: nat)
    requires a <= b
    ensures Pow2(a) <= Pow2(b)
  {
    Pow2Positive(a);
    if a >= b {
    } else {
      Pow2Monotone(a, b - 1);
    }
  }

  /** A number of `w` significant bits lies between two neighbouring powers of two. */
  lemma {:induction false} BitWidthPowers(n: nat)
    requires n > 0
    ensures BitWidth(n) > 0 && Pow2(BitWidth(n) - 1) <= n < Pow2(BitWidth(n))
  {
    if n == 1 {
      assert BitWidth(1) == 1 && Pow2(1) == 2;
    } else {
      BitWidthPowers(n / 2);
    }
  }

  // Multiples of 16 meet a power of two from 16 on exactly where the odd bytes do.
  lemma PowersSkipOddBytes(size: nat, k: nat)
    requires size % 16 == 0 && k >= 4
    ensures Pow2(k) <= size + 7 <==> Pow2(k) <= size
  {
    assert Pow2(4) == 16;
    var m := Pow2(k - 4);
    PowersOf16(k);
    assert Pow2(k) == m * 16 + 0;
    ModOfProduct(m, 0, 16);
    if Pow2(k) <= size + 7 {
      StepsOf16(size, Pow2(k));
    }
  }

  lemma {:induction false} PowersOf16(k: nat)
    requires k >= 4
    ensures Pow2(k) == 16 * Pow2(k - 4)
  {
    if k == 4 {
      assert Pow2(4) == 16;
    } else {
      PowersOf16(k - 1);
    }
  }

  /** What a bin holds. From 4096 bytes on, a bin is the sizes between two
      neighbouring powers of two, and the last bin all sizes from 2^35 on. */
  lemma BinSpan(size: nat)
    requires LegalRunSize(size) && IsWord(size)
    ensures 4096 <= size < 0x8_0000_0000 <==> 512 <= BinIndex(size) < 535
    ensures 512 <= BinIndex(size) < 535 ==> Pow2(BinIndex(size) - 500) <= size < Pow2(BinIndex(size) - 499)
    ensures size >= 0x8_0000_0000 <==> BinIndex(size) == 535
  {
    BinOfWidth(size);
    BitWidthPowers(size + 7);
    hide BinIndex, BitWidth, Pow2;
    if size >= LINEAR_CUTOFF {
      WidthSpan(size, BitWidth(size + 7));
    }
  }

  lemma WidthSpan(size: nat, w: nat)
    requires size % 16 == 0 && w >= 13 && Pow2(w - 1) <= size + 7 < Pow2(w)
    ensures Pow2(w - 1) <= size < Pow2(w)
    ensures size < 0x8_0000_0000 <==> w <= 35
  {
    Pow2Of35();
    hide Pow2;
    PowersSkipOddBytes(size, w - 1);
    if w <= 35 {
      Pow2Monotone(w, 35);
    } else {
      Pow2Monotone(35, w - 1);
    }
  }

  // The bin as a function of the number of significant bits.
  lemma BinOfWidth(size: nat)
    requires LegalRunSize(size) && IsWord(size)
    ensures size < 4096 ==> 0 <= BinIndex(size) < 512
    ensures size >= 4096 ==>
              && BitWidth(size + 7) >= 13
              && BinIndex(size) == if BitWidth(size + 7) <= 35 then BitWidth(size + 7) + 499 else 535
  {
    BinAlignment(size);
    BinInRange(size);
    CutoffWidth();
    hide BitWidth, AlignUp8, OrOne;
    if size >= LINEAR_CUTOFF {
      BitWidthMonotone(LINEAR_CUTOFF, size + 7);
    }
  }

  ghost predicate PowerOfTwo(n: nat) {
    exists k: nat :: n == Pow2(k)
  }

  /** A payload at a multiple of 16 has every smaller alignment too. */
  lemma RunAlignmentServes(h: int, alignment: nat)
    requires h % RUN_ALIGNMENT == 0 && alignment <= RUN_ALIGNMENT
    ensures PowerOfTwo(alignment) ==> alignment > 0 && (h + HEADER_SIZE) % alignment == 0
  {
    if PowerOfTwo(alignment) {
      SmallPowers(alignment);
      hide PowerOfTwo;
      var q := h / 16 + 1;
      ModOfProduct(8 * q, 0, 2);
      ModOfProduct(4 * q, 0, 4);
      ModOfProduct(2 * q, 0, 8);
      assert h + 16 == 16 * q;
    }
  }

  lemma SmallPowers(n: nat)
    requires PowerOfTwo(n) && n <= 16
    ensures n == 1 || n == 2 || n == 4 || n == 8 || n == 16
  {
    var k: nat :| n == Pow2(k);
    assert Pow2(0) == 1 && Pow2(1) == 2 && Pow2(2) == 4 && Pow2(3) == 8 && Pow2(4) == 16 && Pow2(5) == 32;
    hide Pow2;
    if k > 4 {
      Pow2Monotone(5, k);
    }
  }

  lemma Pow2Of35()
    ensures Pow2(35) == 0x8_0000_0000
  {
    assert Pow2(8) == 0x100;
    assert Pow2(16) == 0x1_0000;
    assert Pow2(24) == 0x100_0000;
    assert Pow2(32) == 0x1_0000_0000;
  }

  /** What a lower bin means in bytes: the run in it is no larger below the linear
      cutoff, and less than twice as large below the last bin. */
  lemma LowerBinBytes(size: nat, other: nat)
    requires LegalRunSize(size) && LegalRunSize(other) && IsWord(size) && IsWord(other)
    requires BinIndex(size) <= BinIndex(other)
    ensures size < 4096 ==> size <= other
    ensures size < 0x8_0000_0000 ==> size < 2 * other
  {
    BinInRange(size);
    BinInRange(other);
    if other < size {
      BinMonotone(other, size);
    }
    if BinIndex(size) == BinIndex(other) < LINEAR_BINS {
      LinearBinExact(size, other);
    }
    BinSpan(size);
    BinSpan(other);
    hide BinIndex;
    var i, j := BinIndex(size), BinIndex(other);
    if 512 <= i && j < 535 {
      Pow2Monotone(i - 500, j - 500);
    }
  }

  /** Bit `i` of `w`. */
  predicate Bit(w: nat, i: nat) {
    if i == 0 then w % 2 == 1 else Bit(w / 2, i - 1)
  }

  /** `w | (1 << i)` for b, `w & ~(1 << i)` for !b. */
  function WithBit(w: nat, i: nat, b: bool): nat {
    if i == 0 then w / 2 * 2 + (if b then 1 else 0) else 2 * WithBit(w / 2, i - 1, b) + w % 2
  }

  /** `w & (~0 << k)`. */
  function ClearBelow(w: nat, k: nat): nat {
    if k == 0 then w else 2 * ClearBelow(w / 2, k - 1)
  }

  /** std::countr_zero on a non-zero word. */
  function CountrZero(w: nat): nat
    requires w != 0
  {
    if w % 2 == 1 then 0 else 1 + CountrZero(w / 2)
  }

  lemma {:induction false} WithBitValue(w: nat, i: nat, b: bool)
    ensures WithBit(w, i, b) == w + (if b && !Bit(w, i) then Pow2(i) else 0) - (if !b && Bit(w, i) then Pow2(i) else 0)
  {
    if i == 0 {
    } else {
      WithBitValue(w / 2, i - 1, b);
    }
  }

  lemma {:induction false} WithBitBits(w: nat, i: nat, b: bool, j: nat)
    ensures Bit(WithBit(w, i, b), j) <==> if j == i then b else Bit(w, j)
  {
    if i != 0 && j != 0 {
      WithBitBits(w / 2, i - 1, b, j - 1);
    }
  }

  lemma {:induction false} WithBitBounded(w: nat, i: nat, b: bool, n: nat)
    requires i < n && w < Pow2(n)
    ensures WithBit(w, i, b) < Pow2(n)
  {
    assert Pow2(n) == 2 * Pow2(n - 1) && w / 2 < Pow2(n - 1);
    hide Pow2;
    if i == 0 {
    } else {
      WithBitBounded(w / 2, i - 1, b, n - 1);
      assert WithBit(w, i, b) == 2 * WithBit(w / 2, i - 1, b) + w % 2;
    }
  }

  lemma {:induction false} ClearBelowBits(w: nat, k: nat, j: nat)
    ensures Bit(ClearBelow(w, k), j) <==> k <= j && Bit(w, j)
  {
    if k != 0 && j != 0 {
      ClearBelowBits(w / 2, k - 1, j - 1);
    }
  }

  lemma {:induction false} CountrZeroIsLeast(w: nat, n: nat)
    requires 0 < w < Pow2(n)
    ensures CountrZero(w) < n && Bit(w, CountrZero(w))
    ensures forall j: nat :: j < CountrZero(w) ==> !Bit(w, j)
  {
    if w % 2 == 0 {
      CountrZeroIsLeast(w / 2, n - 1);
    }
  }

  lemma {:induction false} ZeroHasNoBits(j: nat)
    ensures !Bit(0, j)
  {
    if j == 0 {
    } else {
      ZeroHasNoBits(j - 1);
    }
  }

  /** Bit `idx` of the whole mask. */
  predicate MaskBit(mask: seq<Word64>, idx: nat)
    requires |mask| == WORD_COUNT && idx < BIN_COUNT
  {
    Bit(mask[idx / WORD_BITS], idx % WORD_BITS)
  }

  function WithMaskBit(mask: seq<Word64>, idx: nat, b: bool): (r: seq<Word64>)
    requires |mask| == WORD_COUNT && idx < BIN_COUNT
    ensures |r| == WORD_COUNT
    ensures forall j :: 0 <= j < BIN_COUNT ==> (MaskBit(r, j) <==> if j == idx then b else MaskBit(mask, j))
  {
    var k := idx / WORD_BITS;
    Pow2Of64();
    WithBitBounded(mask[k], idx % WORD_BITS, b, WORD_BITS);
    var r := mask[k := WithBit(mask[k], idx % WORD_BITS, b)];
    assert forall j :: 0 <= j < BIN_COUNT ==> (MaskBit(r, j) <==> if j == idx then b else MaskBit(mask, j)) by {
      forall j | 0 <= j < BIN_COUNT
        ensures MaskBit(r, j) <==> if j == idx then b else MaskBit(mask, j)
      {
        WithBitBits(mask[k], idx % WORD_BITS, b, j % WORD_BITS);
      }
    }
    r
  }

  /** Sets or clears one bit in place. */
  method AssignBit(mask: array<Word64>, idx: nat, b: bool)
    requires mask.Length == WORD_COUNT && idx < BIN_COUNT
    modifies mask
    ensures mask[..] == WithMaskBit(old(mask[..]), idx, b)
  {
    var k := idx / WORD_BITS;
    ghost var before := mask[..];
    Pow2Of64();
    WithBitBounded(mask[k], idx % WORD_BITS, b, WORD_BITS);
    mask[k] := WithBit(mask[k], idx % WORD_BITS, b);
    assert mask[..] == before[k := mask[k]];
  }

  /** `w`, one word of the mask with the bits below `from` cleared, tells where
      the search of that word ends. */
  ghost predicate WordSearched(word: nat, from: nat, w: nat) {
    if w == 0 then
      forall j: nat :: from <= j < WORD_BITS ==> !Bit(word, j)
    else
      && from <= CountrZero(w) < WORD_BITS
      && Bit(word, CountrZero(w))
      && forall j: nat :: from <= j < CountrZero(w) ==> !Bit(word, j)
  }

  lemma SearchWord(word: nat, from: nat)
    requires word < Pow2(WORD_BITS)
    ensures WordSearched(word, from, ClearBelow(word, from))
  {
    var w := ClearBelow(word, from);
    forall j: nat | j < WORD_BITS
      ensures Bit(w, j) <==> from <= j && Bit(word, j)
    {
      ClearBelowBits(word, from, j);
    }
    if w == 0 {
      forall j | from <= j < WORD_BITS
        ensures !Bit(word, j)
      {
        ZeroHasNoBits(j);
      }
    } else {
      ClearBelowBounded(word, from, WORD_BITS);
      CountrZeroIsLeast(w, WORD_BITS);
    }
  }

  lemma {:induction false} ClearBelowBounded(w: nat, k: nat, n: nat)
    requires w < Pow2(n)
    ensures ClearBelow(w, k) < Pow2(n)
  {
    if k != 0 && n != 0 {
      ClearBelowBounded(w / 2, k - 1, n - 1);
    } else if k != 0 {
      ClearBelowBounded(0, k - 1, 0);
    }
  }

  /** The word-by-word search: the least set bit at or after `start`, or
      BIN_COUNT when there is none. */
  method FirstNonemptyFrom(mask: array<Word64>, start: nat) returns (found: nat)
    requires mask.Length == WORD_COUNT
    ensures found <= BIN_COUNT
    ensures found < BIN_COUNT ==> start <= found && MaskBit(mask[..], found)
    ensures forall j :: start <= j < found ==> !MaskBit(mask[..], j)
  {
    if start >= BIN_COUNT {
      return BIN_COUNT;
    }
    Pow2Of64();
    var wordIdx := start / WORD_BITS;
    var bitIdx := start % WORD_BITS;
    var word := ClearBelow(mask[wordIdx], bitIdx);
    SearchWord(mask[wordIdx], bitIdx);
    while true
      invariant start / WORD_BITS <= wordIdx < WORD_COUNT
      invariant bitIdx == if wordIdx == start / WORD_BITS then start % WORD_BITS else 0
      invariant WordSearched(mask[wordIdx], bitIdx, word)
      invariant forall j :: start <= j < wordIdx * WORD_BITS && j < BIN_COUNT ==> !MaskBit(mask[..], j)
      decreases WORD_COUNT - wordIdx
    {
      if word != 0 {
        var idx := wordIdx * WORD_BITS + CountrZero(word);
        assert idx / WORD_BITS == wordIdx && idx % WORD_BITS == CountrZero(word);
        forall j | start <= j < idx && j < BIN_COUNT
          ensures !MaskBit(mask[..], j)
        {
          if j >= wordIdx * WORD_BITS {
            assert j / WORD_BITS == wordIdx && j % WORD_BITS == j - wordIdx * WORD_BITS;
          }
        }
        return if idx < BIN_COUNT then idx else BIN_COUNT;
      }
      forall j | start <= j < (wordIdx + 1) * WORD_BITS && j < BIN_COUNT
        ensures !MaskBit(mask[..], j)
      {
        if j >= wordIdx * WORD_BITS {
          assert j / WORD_BITS == wordIdx && j % WORD_BITS == j - wordIdx * WORD_BITS;
        }
      }
      wordIdx := wordIdx + 1;
      if wordIdx >= WORD_COUNT {
        return BIN_COUNT;
      }
      bitIdx := 0;
      word := mask[wordIdx];
      SearchWord(mask[wordIdx], 0);
    }
  }
}
