/** Run sizes and the bins that index free runs by size: the pure arithmetic of
    the runner, with the constants of a 64-bit build. */
module SizeClasses {
  import opened Words

  const RUN_ALIGNMENT: nat := 16
  const HEADER_SIZE: nat := 16
  const MIN_RUN: nat := 48
  const SPLIT_THRESHOLD: nat := 64
  const EPILOGUE_SIZE: nat := 16
  const MIN_CHUNK: nat := MIN_RUN + EPILOGUE_SIZE
  const MIN_BIN_BYTES: nat := 8
  const LINEAR_CUTOFF: nat := 4096
  const LINEAR_BINS: nat := LINEAR_CUTOFF / MIN_BIN_BYTES
  const LOG_BINS: nat := 24
  const BIN_COUNT: nat := LINEAR_BINS + LOG_BINS

  /** Value that a run can have as its size. */
  predicate LegalRunSize(n: int) {
    n >= MIN_RUN && n % RUN_ALIGNMENT == 0
  }

  // value & ~(run_alignment - 1)
  function AlignDown16(value: nat): nat {
    value - value % RUN_ALIGNMENT
  }

  lemma Rounds16(value: nat)
    ensures AlignDown16(value) % 16 == 0 && AlignDown16(value) <= value < AlignDown16(value) + 16
  {
    ModOfProduct(value / 16, 0, 16);
    assert AlignDown16(value) == value / 16 * 16;
  }

  lemma AlignDownIs(value: nat, down: nat)
    requires down % 16 == 0 && down <= value < down + 16
    ensures AlignDown16(value) == down && (down + 16) % 16 == 0
  {
    ModOfProduct(down / 16, value - down, 16);
    ModOfProduct(down / 16 + 1, 0, 16);
  }

  // Multiples of 16 less than 16 apart are equal.
  lemma StepsOf16(a: int, b: int)
    requires a % 16 == 0 && b % 16 == 0 && b < a + 16
    ensures b <= a
  {
    MulMonotone(b / 16, a / 16, 16);
  }

  lemma LegalSum(a: nat, b: nat)
    requires LegalRunSize(a) && LegalRunSize(b)
    ensures LegalRunSize(a + b)
  {
    ModOfProduct(a / 16 + b / 16, 0, 16);
  }

  /** Bytes of the run that serves a payload request, or None where the C++
      function reports overflow. */
  function NormalizedRunBytes(payload: nat): (r: Option<nat>)
    requires IsWord(payload)
  {
    var padded := CheckedAdd(payload, RUN_ALIGNMENT - 1);
    if padded.None? then None else
    var withHeader := CheckedAdd(HEADER_SIZE, AlignDown16(padded.value));
    if withHeader.None? then None else
    var out := CheckedAdd(withHeader.value, RUN_ALIGNMENT - 1);
    if out.None? then None else Some(Max(AlignDown16(out.value), MIN_RUN))
  }

  /** A request can be normalised exactly when it is at most 2^64 - 32, and the
      outcome is the least legal run size whose payload holds it. */
  lemma NormalizedIsLeast(payload: nat)
    requires IsWord(payload)
    ensures NormalizedRunBytes(payload).Some? <==> payload <= WORD_LIMIT - 32
    ensures NormalizedRunBytes(payload).Some? ==>
              var n := NormalizedRunBytes(payload).value;
              && IsWord(n)
              && LegalRunSize(n)
              && payload <= n - HEADER_SIZE
              && forall k :: LegalRunSize(k) && payload <= k - HEADER_SIZE ==> n <= k
  {
    var up := AlignDown16(payload + 15);
    Rounds16(payload + 15);
    AlignDownIs(HEADER_SIZE + up + 15, HEADER_SIZE + up);
    forall k | LegalRunSize(k) && payload <= k - HEADER_SIZE
      ensures HEADER_SIZE + up <= k
    {
      AlignDownIs(k - HEADER_SIZE, k - HEADER_SIZE);
      Rounds16(k - HEADER_SIZE);
      StepsOf16(k - HEADER_SIZE, up);
    }
    hide AlignDown16;
  }

  /** Number of significant bits, as std::bit_width. */
  function BitWidth(n: nat): nat {
    if n == 0 then 0 else 1 + BitWidth(n / 2)
  }

  lemma {:induction false} BitWidthMonotone(a: nat, b: nat)
    requires a <= b
    ensures BitWidth(a) <= BitWidth(b)
  {
    if a == 0 {
    } else {
      BitWidthMonotone(a / 2, b / 2);
    }
  }

  // (value + 7) & ~7 on a 64-bit word: the sum wraps.
  function AlignUp8(value: nat): nat {
    var sum := (value + (MIN_BIN_BYTES - 1)) % WORD_LIMIT;
    sum - sum % MIN_BIN_BYTES
  }

  // bytes | 1
  function OrOne(bytes: nat): nat {
    if bytes % 2 == 0 then bytes + 1 else bytes
  }

  /** The bin of a run of `bytes` bytes: 8-byte linear bins up to the cutoff of
      4096, one bin per power of two above it, the last bin open-ended. */
  function BinIndex(bytes: nat): (idx: int) {
    var aligned := AlignUp8(OrOne(bytes));
    if aligned <= LINEAR_CUTOFF then
      aligned / MIN_BIN_BYTES - 1
    else
      var logIdx := BitWidth(aligned - 1) - BitWidth(LINEAR_CUTOFF);
      if LINEAR_BINS + logIdx < BIN_COUNT - 1 then LINEAR_BINS + logIdx else BIN_COUNT - 1
  }

  lemma CutoffWidth()
    ensures BitWidth(LINEAR_CUTOFF) == 13
  {
    assert BitWidth(1) == 1;
    assert BitWidth(2) == 2;
    assert BitWidth(4) == 3;
    assert BitWidth(8) == 4;
    assert BitWidth(16) == 5;
    assert BitWidth(32) == 6;
    assert BitWidth(64) == 7;
    assert BitWidth(128) == 8;
    assert BitWidth(256) == 9;
    assert BitWidth(512) == 10;
    assert BitWidth(1024) == 11;
    assert BitWidth(2048) == 12;
  }

  lemma WidthOf4103()
    ensures BitWidth(4103) == 13
  {
    assert BitWidth(1) == 1;
    assert BitWidth(2) == 2;
    assert BitWidth(4) == 3;
    assert BitWidth(8) == 4;
    assert BitWidth(16) == 5;
    assert BitWidth(32) == 6;
    assert BitWidth(64) == 7;
    assert BitWidth(128) == 8;
    assert BitWidth(256) == 9;
    assert BitWidth(512) == 10;
    assert BitWidth(1025) == 11;
    assert BitWidth(2051) == 12;
  }

  /** Run sizes below the word limit never wrap in the rounding step. */
  lemma BinAlignment(size: nat)
    requires LegalRunSize(size) && IsWord(size)
    ensures AlignUp8(OrOne(size)) == size + 8
  {
    var k := size / 16;
    ModOfProduct(8 * k, 0, 2);
    ModOfProduct(2 * k + 1, 0, 8);
    assert size == 16 * k && OrOne(size) == size + 1 && size + 8 < WORD_LIMIT;
  }

  /** Every legal size has a bin, linear exactly below the cutoff: a size of
      4096 itself already falls in the first logarithmic bin. */
  lemma BinInRange(size: nat)
    requires LegalRunSize(size) && IsWord(size)
    ensures 0 <= BinIndex(size) < BIN_COUNT
    ensures BinIndex(size) < LINEAR_BINS <==> size < LINEAR_CUTOFF
  {
    BinAlignment(size);
    CutoffWidth();
    if size + 8 > LINEAR_CUTOFF {
      BitWidthMonotone(LINEAR_CUTOFF, size + 7);
    }
  }

  /** Larger runs never fall in lower bins. */
  lemma BinMonotone(a: nat, b: nat)
    requires LegalRunSize(a) && LegalRunSize(b) && a <= b && IsWord(b)
    ensures BinIndex(a) <= BinIndex(b)
  {
    BinInRange(a);
    BinInRange(b);
    BinAlignment(a);
    BinAlignment(b);
    if a + 8 > LINEAR_CUTOFF {
      BitWidthMonotone(a + 7, b + 7);
    }
  }

  /** A linear bin holds runs of one size only, so its head always fits. */
  lemma LinearBinExact(a: nat, b: nat)
    requires LegalRunSize(a) && LegalRunSize(b) && IsWord(a) && IsWord(b)
    requires BinIndex(a) == BinIndex(b) < LINEAR_BINS
    ensures a == b
  {
    BinInRange(a);
    BinInRange(b);
    BinAlignment(a);
    BinAlignment(b);
  }

  /** The documented cutoff of 2 KiB is not the one in force: 2048-byte runs
      still have a linear bin of their own, and so does every size up to 4080. */
  lemma CutoffIsFourKiB()
    ensures BinIndex(2048) == 256 && BinIndex(4080) == 510 && BinIndex(4096) == LINEAR_BINS
  {
    BinAlignment(2048);
    BinAlignment(4080);
    BinAlignment(4096);
    CutoffWidth();
    WidthOf4103();
  }

  /** What one allocation takes from a free run of `size` bytes: it is split
      only when the remainder is at least 112 bytes. */
  predicate Splits(size: int, needed: int) {
    size - needed >= MIN_RUN + SPLIT_THRESHOLD
  }

  function GrantedSize(size: int, needed: int): int {
    if Splits(size, needed) then needed else size
  }

  /** Waste bound: a granted run exceeds the need by at most 96 bytes; a remainder
      is cut off exactly when it has at least 112. */
  lemma WasteBound(size: nat, needed: nat)
    requires LegalRunSize(size) && LegalRunSize(needed) && needed <= size
    ensures needed <= GrantedSize(size, needed) <= needed + 96
    ensures GrantedSize(size, needed) == if size >= needed + 112 then needed else size
    ensures Splits(size, needed) <==> size >= needed + 112
    ensures LegalRunSize(GrantedSize(size, needed))
    ensures Splits(size, needed) ==> LegalRunSize(size - needed)
  {
    ModOfProduct(size / 16 - needed / 16, 0, 16);
  }
}
