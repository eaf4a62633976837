/** Vector delimiter search: the bit-mask arithmetic of the AVX2 and NEON scans,
    against the scalar loop. */
module VectorScan {
  import opened Stream

  // ---- 32-bit match masks ----

  /** Bit i of the mask says whether byte p + i is the delimiter. */
  ghost predicate Matches(m: bv32, k: nat, input: Input, p: nat)
    decreases k
  {
    k == 0 || ((m & 1 == 1 <==> input.Mark(p)) && Matches(m >> 1, k - 1, input, p + 1))
  }

  function PopCount(m: bv32, k: nat): (n: nat)
    ensures n <= k
    decreases k
  {
    if k == 0 then 0 else (if m & 1 == 1 then 1 else 0) + PopCount(m >> 1, k - 1)
  }

  /** Position of the lowest set bit. */
  function Ctz(m: bv32, k: nat): (i: nat)
    requires PopCount(m, k) > 0
    ensures i < k
    decreases k
  {
    if m & 1 == 1 then 0 else 1 + Ctz(m >> 1, k - 1)
  }

  /** Position of the n-th set bit. */
  ghost function NthBit(m: bv32, k: nat, n: nat): (i: nat)
    requires 0 < n <= PopCount(m, k)
    ensures i < k
    decreases k
  {
    if m & 1 == 1 then (if n == 1 then 0 else 1 + NthBit(m >> 1, k - 1, n - 1)) else 1 + NthBit(m >> 1, k - 1, n)
  }

  lemma BlsrOdd(m: bv32)
    requires m & 1 == 1
    ensures (m & (m - 1)) & 1 == 0 && (m & (m - 1)) >> 1 == m >> 1
  {
  }

  lemma BlsrEven(m: bv32)
    requires m & 1 == 0 && m != 0
    ensures (m & (m - 1)) & 1 == 0 && (m & (m - 1)) >> 1 == (m >> 1) & ((m >> 1) - 1)
  {
  }

  lemma {:induction false} ZeroHasNoBits(k: nat)
    ensures PopCount(0, k) == 0
  {
    if k > 0 { ZeroHasNoBits(k - 1); }
  }

  /** Dropping the lowest set bit makes the n-th the (n-1)-th. */
  ghost predicate Shifted(b: bv32, m: bv32, k: nat, n: nat)
    requires 0 < n <= PopCount(m, k)
  {
    PopCount(b, k) == PopCount(m, k) - 1 && (n > 1 ==> NthBit(b, k, n - 1) == NthBit(m, k, n))
  }

  lemma ShiftedOdd(b: bv32, m: bv32, k: nat, n: nat)
    requires 0 < n <= PopCount(m, k) && m & 1 == 1 && b & 1 == 0 && b >> 1 == m >> 1
    ensures Shifted(b, m, k, n)
  {
  }

  lemma ShiftedEven(b: bv32, m: bv32, k: nat, n: nat)
    requires 0 < n <= PopCount(m, k) && m & 1 == 0 && b & 1 == 0
    requires 0 < n <= PopCount(m >> 1, k - 1) && Shifted(b >> 1, m >> 1, k - 1, n)
    ensures Shifted(b, m, k, n)
  {
  }

  lemma {:induction false} BlsrShifts(m: bv32, k: nat, n: nat)
    requires 0 < n <= PopCount(m, k)
    ensures Shifted(m & (m - 1), m, k, n)
    decreases k
  {
    if m == 0 { ZeroHasNoBits(k); }
    hide Shifted;
    if m & 1 == 1 {
      BlsrOdd(m);
      ShiftedOdd(m & (m - 1), m, k, n);
    } else {
      BlsrEven(m);
      BlsrShifts(m >> 1, k - 1, n);
      ShiftedEven(m & (m - 1), m, k, n);
    }
  }

  /** The counts and positions a mask stands for. */
  lemma {:induction false} MaskCounts(m: bv32, k: nat, input: Input, p: nat)
    requires p + k <= |input.bytes| && Matches(m, k, input, p)
    ensures input.Count(p + k) == input.Count(p) + PopCount(m, k)
    decreases k
  {
    if k > 0 { MaskCounts(m >> 1, k - 1, input, p + 1); }
  }

  lemma {:induction false} MaskNth(m: bv32, k: nat, input: Input, p: nat, n: nat)
    requires p + k <= |input.bytes| && Matches(m, k, input, p) && 0 < n <= PopCount(m, k)
    ensures input.EdgeOf(p + NthBit(m, k, n) + 1, input.Count(p) + n)
    decreases k
  {
    if m & 1 == 1 && n == 1 {
    } else {
      MaskNth(m >> 1, k - 1, input, p + 1, if m & 1 == 1 then n - 1 else n);
    }
  }

  lemma {:induction false} CtzIsFirst(m: bv32, k: nat)
    requires PopCount(m, k) > 0
    ensures Ctz(m, k) == NthBit(m, k, 1)
    decreases k
  {
    if m & 1 == 0 { CtzIsFirst(m >> 1, k - 1); }
  }

  /** The top j bits are clear. */
  ghost predicate Small(m: bv32, j: nat)
    decreases j
  {
    j == 0 || (m & 0x8000_0000 == 0 && Small(m << 1, j - 1))
  }

  lemma {:induction false} SmallOr(x: bv32, y: bv32, j: nat)
    requires Small(x, j) && Small(y, j)
    ensures Small(x | y, j)
    decreases j
  {
    if j > 0 {
      assert (x | y) << 1 == (x << 1) | (y << 1);
      SmallOr(x << 1, y << 1, j - 1);
    }
  }

  lemma {:induction false} SmallLess(m: bv32, j: nat, i: nat)
    requires Small(m, j) && i <= j
    ensures Small(m, i)
    decreases i
  {
    if i > 0 { SmallLess(m << 1, j - 1, i - 1); }
  }

  lemma OneIsSmall()
    ensures Small(1, 31)
  {
    assert Small(0x8000_0000, 0);
    assert Small(0x0100_0000, 7);
    assert Small(0x1_0000, 15);
    assert Small(0x100, 23);
  }

  lemma PushZero(m: bv32)
    requires m & 0x8000_0000 == 0
    ensures (m << 1) >> 1 == m && (m << 1) & 1 == 0
  {
  }

  lemma PushOne(m: bv32)
    requires m & 0x8000_0000 == 0
    ensures ((m << 1) | 1) >> 1 == m && ((m << 1) | 1) & 1 == 1
  {
  }

  lemma PushBit(m: bv32, bit: bool, j: nat)
    requires 0 < j <= 32 && Small(m, j)
    ensures var r := if bit then (m << 1) | 1 else m << 1;
      Small(r, j - 1) && r >> 1 == m && (r & 1 == 1 <==> bit)
  {
    if bit {
      PushOne(m);
      OneIsSmall();
      SmallLess(1, 31, j - 1);
      SmallOr(m << 1, 1, j - 1);
    } else {
      PushZero(m);
    }
  }

  /** Compare 32 bytes with the delimiter and collect the results in a mask. */
  method MoveMask(input: Input, p: nat) returns (m: bv32)
    requires p + 32 <= |input.bytes|
    ensures Matches(m, 32, input, p)
  {
    m := 0;
    var i := 32;
    ZeroIsSmall(32);
    while i > 0
      invariant 0 <= i <= 32 && Small(m, i) && Matches(m, 32 - i, input, p + i)
    {
      var bit := input.bytes[p + i - 1] == input.delim;
      PushBit(m, bit, i);
      m := if bit then (m << 1) | 1 else m << 1;
      i := i - 1;
    }
  }

  lemma {:induction false} ZeroIsSmall(j: nat)
    ensures Small(0, j)
  {
    if j > 0 { ZeroIsSmall(j - 1); }
  }

  /** Drop the lowest n - 1 set bits, then take the lowest: the n-th. */
  method SelectNth(mask: bv32, n: nat) returns (i: nat)
    requires 0 < n <= PopCount(mask, 32)
    ensures i == NthBit(mask, 32, n)
  {
    var m, left := mask, n;
    while left > 1
      invariant 0 < left <= n && left <= PopCount(m, 32) && NthBit(m, 32, left) == NthBit(mask, 32, n)
    {
      BlsrShifts(m, 32, left);
      m := m & (m - 1);
      left := left - 1;
    }
    CtzIsFirst(m, 32);
    i := Ctz(m, 32);
  }

  /** The scalar tail of both vector scans. */
  method ScanTail(input: Input, from: nat, end: nat, n: nat) returns (hit: Hit)
    requires from <= end <= |input.bytes| && n > 0
    ensures NthHit(input, from, end, n, hit)
  {
    var p, remaining := from, n;
    while p < end
      invariant from <= p <= end && 0 < remaining <= n && input.Count(p) == input.Count(from) + (n - remaining)
    {
      if input.bytes[p] == input.delim {
        remaining := remaining - 1;
        if remaining == 0 { return At(p + 1); }
      }
      p := p + 1;
    }
    hit := Fewer;
  }

  /** scan_batch_avx2: 32 bytes at a time. */
  method ScanAvx2(input: Input, from: nat, end: nat, target: nat) returns (hit: Hit)
    requires from <= end <= |input.bytes| && target > 0
    ensures NthHit(input, from, end, target, hit)
  {
    var p, remaining := from, target;
    hide Matches, PopCount, NthBit, Input.Count;
    while p + 32 <= end
      invariant from <= p <= end && 0 < remaining <= target
      invariant input.Count(p) == input.Count(from) + (target - remaining)
    {
      var mask := MoveMask(input, p);
      MaskCounts(mask, 32, input, p);
      var hits := PopCount(mask, 32);
      if hits < remaining {
        remaining := remaining - hits;
        p := p + 32;
        continue;
      }
      var i := SelectNth(mask, remaining);
      MaskNth(mask, 32, input, p, remaining);
      return At(p + i + 1);
    }
    hit := ScanTail(input, p, end, remaining);
  }

  /** fast_count_delim_avx2. */
  method CountAvx2(input: Input, from: nat, end: nat) returns (count: nat)
    requires from <= end <= |input.bytes|
    ensures input.Count(end) == input.Count(from) + count
  {
    var p := from;
    count := 0;
    while p + 32 <= end
      invariant from <= p <= end && input.Count(p) == input.Count(from) + count
    {
      var mask := MoveMask(input, p);
      MaskCounts(mask, 32, input, p);
      count := count + PopCount(mask, 32);
      p := p + 32;
    }
    var tail := CountTail(input, p, end);
    count := count + tail;
  }

  /** The scalar tail of the counts, and the count without vectors. */
  method CountTail(input: Input, from: nat, end: nat) returns (count: nat)
    requires from <= end <= |input.bytes|
    ensures input.Count(end) == input.Count(from) + count
  {
    var p := from;
    count := 0;
    while p < end
      invariant from <= p <= end && input.Count(p) == input.Count(from) + count
    {
      if input.bytes[p] == input.delim { count := count + 1; }
      p := p + 1;
    }
  }

  // ---- 64-bit NEON lanes: a matching byte is 0xFF, any other 0 ----

  ghost predicate Lane(m: bv64, k: nat, input: Input, p: nat)
    decreases k
  {
    k == 0 || ((if input.Mark(p) then IsFull(m) else IsEmpty(m)) && Lane(Above(m), k - 1, input, p + 1))
  }

  function PopCount64(m: bv64, k: nat): nat
    decreases k
  {
    if k == 0 then 0 else (if m & 1 == 1 then 1 else 0) + PopCount64(m >> 1, k - 1)
  }

  lemma CountBit(m: bv64, next: bv64, k: nat)
    requires next == m >> 1
    ensures PopCount64(m, 1 + k) == PopCount64(next, k) + if m & 1 == 1 then 1 else 0
  {
  }

  /** Four shifts, all with the same low bit. */
  ghost predicate Nibble(m0: bv64, m1: bv64, m2: bv64, m3: bv64, m4: bv64, low: bv64) {
    && m1 == m0 >> 1 && m2 == m1 >> 1 && m3 == m2 >> 1 && m4 == m3 >> 1
    && m0 & 1 == low && m1 & 1 == low && m2 & 1 == low && m3 & 1 == low
  }

  lemma CountNibble(m0: bv64, m1: bv64, m2: bv64, m3: bv64, m4: bv64, low: bv64, k: nat)
    requires Nibble(m0, m1, m2, m3, m4, low)
    ensures PopCount64(m0, 4 + k) == PopCount64(m4, k) + if low == 1 then 4 else 0
  {
    hide PopCount64;
    CountBit(m0, m1, 3 + k);
    CountBit(m1, m2, 2 + k);
    CountBit(m2, m3, 1 + k);
    CountBit(m3, m4, k);
  }

  lemma ByteBit(m: bv64)
    requires m & 0xFF == 0xFF || m & 0xFF == 0
    ensures var low := if m & 0xFF == 0 then 0 else 1;
      && m & 1 == low && (m >> 1) & 1 == low && (m >> 2) & 1 == low && (m >> 3) & 1 == low
      && (m >> 4) & 1 == low && (m >> 5) & 1 == low && (m >> 6) & 1 == low && (m >> 7) & 1 == low
  {
  }

  lemma ByteShift(m: bv64)
    ensures (m >> 1) >> 1 == m >> 2 && (m >> 2) >> 1 == m >> 3 && (m >> 3) >> 1 == m >> 4 && (m >> 4) >> 1 == m >> 5
    ensures (m >> 5) >> 1 == m >> 6 && (m >> 6) >> 1 == m >> 7 && (m >> 7) >> 1 == m >> 8
  {
  }

  lemma ByteNibbles(m: bv64)
    requires m & 0xFF == 0xFF || m & 0xFF == 0
    ensures var low := if m & 0xFF == 0 then 0 else 1;
      Nibble(m, m >> 1, m >> 2, m >> 3, m >> 4, low) && Nibble(m >> 4, m >> 5, m >> 6, m >> 7, m >> 8, low)
  {
    ByteBit(m);
    ByteShift(m);
  }

  /** Set bits of a whole byte. */
  lemma ByteBits(m: bv64, k: nat)
    requires m & 0xFF == 0xFF || m & 0xFF == 0
    ensures PopCount64(m, 8 + k) == PopCount64(m >> 8, k) + if m & 0xFF == 0xFF then 8 else 0
  {
    hide PopCount64, Nibble;
    var low := if m & 0xFF == 0 then 0 else 1;
    ByteNibbles(m);
    CountNibble(m, m >> 1, m >> 2, m >> 3, m >> 4, low, 4 + k);
    CountNibble(m >> 4, m >> 5, m >> 6, m >> 7, m >> 8, low, k);
  }

  function Ctz64(m: bv64, k: nat): (i: nat)
    requires PopCount64(m, k) > 0
    ensures i < k
    decreases k
  {
    if m & 1 == 1 then 0 else 1 + Ctz64(m >> 1, k - 1)
  }

  lemma SkipBit(m: bv64, next: bv64, k: nat)
    requires next == m >> 1 && m & 1 == 0 && PopCount64(m, 1 + k) > 0
    ensures PopCount64(next, k) > 0 && Ctz64(m, 1 + k) == 1 + Ctz64(next, k)
  {
  }

  lemma SkipNibble(m0: bv64, m1: bv64, m2: bv64, m3: bv64, m4: bv64, k: nat)
    requires Nibble(m0, m1, m2, m3, m4, 0) && PopCount64(m0, 4 + k) > 0
    ensures PopCount64(m4, k) > 0 && Ctz64(m0, 4 + k) == 4 + Ctz64(m4, k)
  {
    hide PopCount64, Ctz64;
    SkipBit(m0, m1, 3 + k);
    SkipBit(m1, m2, 2 + k);
    SkipBit(m2, m3, 1 + k);
    SkipBit(m3, m4, k);
  }

  /** The lowest set bit lies beyond an empty byte. */
  lemma SkipByte(m: bv64, k: nat)
    requires m & 0xFF == 0 && PopCount64(m, 8 + k) > 0
    ensures PopCount64(m >> 8, k) > 0 && Ctz64(m, 8 + k) == 8 + Ctz64(m >> 8, k)
  {
    hide PopCount64, Ctz64, Nibble;
    ByteNibbles(m);
    SkipNibble(m, m >> 1, m >> 2, m >> 3, m >> 4, 4 + k);
    SkipNibble(m >> 4, m >> 5, m >> 6, m >> 7, m >> 8, k);
  }

  /** The lowest byte of a lane, and the lane above it. */
  predicate IsFull(m: bv64) {
    m & 0xFF == 0xFF
  }

  predicate IsEmpty(m: bv64) {
    m & 0xFF == 0
  }

  function Above(m: bv64): bv64 {
    m >> 8
  }

  function ByteMask(i: nat): bv64
    requires i < 8
  {
    (0xFF as bv64) << (8 * i)
  }

  /** The lane with byte i cleared. */
  function Without(m: bv64, i: nat): bv64
    requires i < 8
  {
    Masked(m, ByteMask(i))
  }

  function Masked(m: bv64, mask: bv64): bv64 {
    m & !mask
  }

  /** Every byte of the lane is full or empty. */
  ghost predicate Bytewise(m: bv64, k: nat)
    decreases k
  {
    k == 0 || ((IsFull(m) || IsEmpty(m)) && Bytewise(Above(m), k - 1))
  }

  /** Full bytes. */
  ghost function Full(m: bv64, k: nat): (n: nat)
    ensures n <= k
    decreases k
  {
    if k == 0 then 0 else (if IsFull(m) then 1 else 0) + Full(Above(m), k - 1)
  }

  /** Index of the n-th full byte. */
  ghost function NthFull(m: bv64, k: nat, n: nat): (i: nat)
    requires 0 < n <= Full(m, k)
    ensures i < k
    decreases k
  {
    if IsFull(m) then (if n == 1 then 0 else 1 + NthFull(Above(m), k - 1, n - 1)) else 1 + NthFull(Above(m), k - 1, n)
  }

  lemma FullOrEmpty(m: bv64, k: nat)
    requires IsFull(m) || IsEmpty(m)
    ensures PopCount64(m, 8 + k) == PopCount64(Above(m), k) + if IsFull(m) then 8 else 0
    ensures IsFull(m) ==> m & 1 == 1
  {
    hide PopCount64;
    ByteBits(m, k);
  }

  lemma {:induction false} FullBits(m: bv64, k: nat)
    requires Bytewise(m, k)
    ensures PopCount64(m, 8 * k) == 8 * Full(m, k)
    decreases k
  {
    hide IsFull, IsEmpty, Above;
    if k > 0 {
      FullOrEmpty(m, 8 * (k - 1));
      FullBits(Above(m), k - 1);
    }
  }

  lemma FirstFullHere(m: bv64, k: nat)
    requires IsFull(m)
    ensures PopCount64(m, 8 + k) > 0 && Ctz64(m, 8 + k) == 0
  {
    FullOrEmpty(m, k);
  }

  lemma FirstFullAbove(m: bv64, k: nat)
    requires IsEmpty(m) && PopCount64(m, 8 + k) > 0
    ensures PopCount64(Above(m), k) > 0 && Ctz64(m, 8 + k) == 8 + Ctz64(Above(m), k)
  {
    hide PopCount64, Ctz64;
    SkipByte(m, k);
  }

  lemma NotBoth(m: bv64)
    ensures !(IsFull(m) && IsEmpty(m))
  {
  }

  lemma {:induction false} FirstFull(m: bv64, k: nat)
    requires Bytewise(m, k) && Full(m, k) > 0
    ensures PopCount64(m, 8 * k) > 0 && Ctz64(m, 8 * k) == 8 * NthFull(m, k, 1)
    decreases k
  {
    FullBits(m, k);
    hide IsFull, IsEmpty, Above, PopCount64, Ctz64;
    if IsFull(m) {
      FirstFullHere(m, 8 * (k - 1));
    } else {
      FirstFullAbove(m, 8 * (k - 1));
      FirstFull(Above(m), k - 1);
    }
  }

  lemma ByteMaskStep(i: nat)
    requires i < 7
    ensures ByteMask(i + 1) >> 8 == ByteMask(i) && ByteMask(i + 1) & 0xFF == 0
  {
    if i == 0 {
      assert ByteMask(1) == 0xFF00 && ByteMask(0) == 0xFF;
    } else if i == 1 {
      assert ByteMask(2) == 0xFF_0000 && ByteMask(1) == 0xFF00;
    } else if i == 2 {
      assert ByteMask(3) == 0xFF00_0000 && ByteMask(2) == 0xFF_0000;
    } else if i == 3 {
      assert ByteMask(4) == 0xFF_0000_0000 && ByteMask(3) == 0xFF00_0000;
    } else if i == 4 {
      assert ByteMask(5) == 0xFF00_0000_0000 && ByteMask(4) == 0xFF_0000_0000;
    } else if i == 5 {
      assert ByteMask(6) == 0xFF_0000_0000_0000 && ByteMask(5) == 0xFF00_0000_0000;
    } else {
      assert ByteMask(7) == 0xFF00_0000_0000_0000 && ByteMask(6) == 0xFF_0000_0000_0000;
    }
  }

  lemma FirstMask()
    ensures ByteMask(0) == 0xFF
  {
  }

  lemma MaskHere(m: bv64, mask: bv64)
    requires mask == 0xFF
    ensures (m & !mask) & 0xFF == 0 && (m & !mask) >> 8 == m >> 8
  {
  }

  lemma MaskAbove(m: bv64, mask: bv64)
    requires m & 0xFF == 0 && mask & 0xFF == 0
    ensures (m & !mask) & 0xFF == 0 && (m & !mask) >> 8 == (m >> 8) & !(mask >> 8)
  {
  }

  lemma WithoutFirst(m: bv64)
    ensures IsEmpty(Without(m, 0)) && Above(Without(m, 0)) == Above(m)
  {
    FirstMask();
    hide ByteMask;
    MaskHere(m, ByteMask(0));
  }

  lemma WithoutLater(m: bv64, i: nat)
    requires 0 < i < 8 && IsEmpty(m)
    ensures IsEmpty(Without(m, i)) && Above(Without(m, i)) == Without(Above(m), i - 1)
  {
    hide ByteMask, Masked, IsEmpty, Above;
    MaskStep(i - 1);
    MaskAboveStep(m, ByteMask(i), ByteMask(i - 1));
  }

  lemma MaskStep(i: nat)
    requires i < 7
    ensures Above(ByteMask(i + 1)) == ByteMask(i) && IsEmpty(ByteMask(i + 1))
  {
    ByteMaskStep(i);
  }

  lemma MaskAboveStep(m: bv64, mask: bv64, above: bv64)
    requires IsEmpty(m) && IsEmpty(mask) && Above(mask) == above
    ensures IsEmpty(Masked(m, mask)) && Above(Masked(m, mask)) == Masked(Above(m), above)
  {
    MaskAbove(m, mask);
  }

  /** Clearing the first full byte makes the n-th the (n-1)-th. */
  ghost predicate Cleared(c: bv64, m: bv64, k: nat, n: nat)
    requires 0 < n <= Full(m, k)
  {
    Bytewise(c, k) && Full(c, k) == Full(m, k) - 1 && (n > 1 ==> NthFull(c, k, n - 1) == NthFull(m, k, n))
  }

  lemma ClearedHere(c: bv64, m: bv64, k: nat, n: nat)
    requires Bytewise(m, k) && 0 < n <= Full(m, k) && IsFull(m) && IsEmpty(c) && !IsFull(c) && Above(c) == Above(m)
    ensures Cleared(c, m, k, n)
  {
    hide IsFull, IsEmpty, Above;
  }

  lemma ClearedAbove(c: bv64, m: bv64, k: nat, n: nat)
    requires 0 < n <= Full(m, k) && !IsFull(m) && IsEmpty(c) && !IsFull(c)
    requires n <= Full(Above(m), k - 1) && Cleared(Above(c), Above(m), k - 1, n)
    ensures Cleared(c, m, k, n)
  {
    hide IsFull, IsEmpty, Above;
  }

  lemma FirstFullStep(m: bv64, k: nat, n: nat)
    requires Bytewise(m, k) && 0 < n <= Full(m, k)
    ensures k > 0 && (IsFull(m) ==> NthFull(m, k, 1) == 0)
    ensures !IsFull(m) ==>
      IsEmpty(m) && Bytewise(Above(m), k - 1) && n <= Full(Above(m), k - 1)
      && NthFull(m, k, 1) == 1 + NthFull(Above(m), k - 1, 1)
  {
    hide IsFull, IsEmpty, Above;
  }

  lemma {:induction false} ClearShifts(m: bv64, k: nat, n: nat)
    requires k <= 8 && Bytewise(m, k) && 0 < n <= Full(m, k)
    ensures Cleared(Without(m, NthFull(m, k, 1)), m, k, n)
    decreases k
  {
    hide IsFull, IsEmpty, Above, Without, Cleared, Full, NthFull, Bytewise;
    FirstFullStep(m, k, n);
    var i := NthFull(m, k, 1);
    NotBoth(Without(m, i));
    if IsFull(m) {
      WithoutFirst(m);
      ClearedHere(Without(m, i), m, k, n);
    } else {
      WithoutLater(m, i);
      ClearShifts(Above(m), k - 1, n);
      ClearedAbove(Without(m, i), m, k, n);
    }
  }

  lemma {:induction false} LaneCounts(m: bv64, k: nat, input: Input, p: nat)
    requires p + k <= |input.bytes| && Lane(m, k, input, p)
    ensures Bytewise(m, k) && input.Count(p + k) == input.Count(p) + Full(m, k)
    decreases k
  {
    hide IsFull, IsEmpty, Above;
    NotBoth(m);
    if k > 0 { LaneCounts(Above(m), k - 1, input, p + 1); }
  }

  lemma {:induction false} LaneNth(m: bv64, k: nat, input: Input, p: nat, n: nat)
    requires p + k <= |input.bytes| && Lane(m, k, input, p) && 0 < n <= Full(m, k)
    ensures input.EdgeOf(p + NthFull(m, k, n) + 1, input.Count(p) + n)
    decreases k
  {
    hide IsFull, IsEmpty, Above;
    NotBoth(m);
    if IsFull(m) && n == 1 {
    } else {
      LaneNth(Above(m), k - 1, input, p + 1, if IsFull(m) then n - 1 else n);
    }
  }

  lemma LanePush(m: bv64, full: bool)
    requires m & 0xFF00_0000_0000_0000 == 0
    ensures var r := if full then (m << 8) | 0xFF else m << 8;
      Above(r) == m && if full then IsFull(r) else IsEmpty(r)
  {
  }

  /** 256 to the i-th. */
  function Limit(i: nat): bv64
    requires i < 8
  {
    match i
    case 0 => 1
    case 1 => 0x100
    case 2 => 0x1_0000
    case 3 => 0x100_0000
    case 4 => 0x1_0000_0000
    case 5 => 0x100_0000_0000
    case 6 => 0x1_0000_0000_0000
    case 7 => 0x100_0000_0000_0000
  }

  /** A lane of i bytes leaves the top byte free, and one more byte makes it i + 1. */
  lemma LaneRoom(m: bv64, i: nat, full: bool)
    requires i < 8 && m < Limit(i)
    ensures m & 0xFF00_0000_0000_0000 == 0
    ensures i < 7 ==> (if full then (m << 8) | 0xFF else m << 8) < Limit(i + 1)
  {
  }

  /** Compare eight bytes with the delimiter. */
  method CompareLane(input: Input, p: nat) returns (m: bv64)
    requires p + 8 <= |input.bytes|
    ensures Lane(m, 8, input, p)
  {
    m := 0;
    var i := 8;
    hide Limit, IsFull, IsEmpty, Above;
    LimitZero();
    while i > 0
      invariant 0 <= i <= 8 && Lane(m, 8 - i, input, p + i)
      invariant i > 0 ==> m < Limit(8 - i)
    {
      var full := input.bytes[p + i - 1] == input.delim;
      LaneRoom(m, 8 - i, full);
      LanePush(m, full);
      m := if full then (m << 8) | 0xFF else m << 8;
      i := i - 1;
    }
  }

  lemma LimitZero()
    ensures 0 < Limit(0)
  {
  }

  /** Index of a lane's first full byte. */
  method FirstByte(m: bv64) returns (i: nat)
    requires Bytewise(m, 8) && Full(m, 8) > 0
    ensures i < 8 && i == NthFull(m, 8, 1)
  {
    hide Bytewise, Full, NthFull, PopCount64, Ctz64;
    FirstFull(m, 8);
    i := Ctz64(m, 64) / 8;
  }

  /** Clear the first n - 1 full bytes of a lane, then take the first: the n-th. */
  method SelectByte(lane: bv64, n: nat) returns (i: nat)
    requires Bytewise(lane, 8) && 0 < n <= Full(lane, 8)
    ensures i == NthFull(lane, 8, n)
  {
    var m, left := lane, n;
    hide Bytewise, Full, NthFull, Without;
    while left > 1
      invariant 0 < left <= n && Bytewise(m, 8) && left <= Full(m, 8) && NthFull(m, 8, left) == NthFull(lane, 8, n)
    {
      var idx := FirstByte(m);
      ClearShifts(m, 8, left);
      m := Without(m, idx);
      left := left - 1;
    }
    i := FirstByte(m);
  }

  /** One lane of the NEON scan: how many matches it has, and where the n-th ends
      if it has that many. */
  method ScanLane(input: Input, p: nat, remaining: nat) returns (hits: nat, hit: Hit)
    requires p + 8 <= |input.bytes| && remaining > 0
    ensures input.Count(p + 8) == input.Count(p) + hits
    ensures hit.At? <==> hits >= remaining
    ensures hit.At? ==> NthHit(input, p, p + 8, remaining, hit)
  {
    hide Lane, Full, NthFull, Input.Count;
    var lane;
    lane, hits := MatchLane(input, p);
    if hits < remaining { return hits, Fewer; }
    var i := SelectByte(lane, remaining);
    LaneNth(lane, 8, input, p, remaining);
    hit := At(p + i + 1);
  }

  /** A lane and its number of matches. */
  method MatchLane(input: Input, p: nat) returns (lane: bv64, hits: nat)
    requires p + 8 <= |input.bytes|
    ensures Lane(lane, 8, input, p) && Bytewise(lane, 8) && hits == Full(lane, 8)
    ensures input.Count(p + 8) == input.Count(p) + hits
  {
    hide Lane, Bytewise, Full, PopCount64, Input.Count;
    lane := CompareLane(input, p);
    LaneCounts(lane, 8, input, p);
    FullBits(lane, 8);
    hits := PopCount64(lane, 64) / 8;
  }

  /** scan_batch_neon: two lanes of eight bytes at a time. */
  method ScanNeon(input: Input, from: nat, end: nat, target: nat) returns (hit: Hit)
    requires from <= end <= |input.bytes| && target > 0
    ensures NthHit(input, from, end, target, hit)
  {
    var p, remaining := from, target;
    hide Input.Count;
    while p + 16 <= end
      invariant from <= p <= end && 0 < remaining <= target
      invariant input.Count(p) == input.Count(from) + (target - remaining)
    {
      var hits;
      hits, hit := ScanLane(input, p, remaining);
      if hit.At? { return; }
      remaining := remaining - hits;
      hits, hit := ScanLane(input, p + 8, remaining);
      if hit.At? { return; }
      remaining := remaining - hits;
      p := p + 16;
    }
    hit := ScanTail(input, p, end, remaining);
  }

  /** fast_count_delim_neon. */
  method CountNeon(input: Input, from: nat, end: nat) returns (count: nat)
    requires from <= end <= |input.bytes|
    ensures input.Count(end) == input.Count(from) + count
  {
    var p := from;
    count := 0;
    hide Lane, Bytewise, Full, Input.Count;
    while p + 16 <= end
      invariant from <= p <= end && input.Count(p) == input.Count(from) + count
    {
      var lo, loHits := MatchLane(input, p);
      var hi, hiHits := MatchLane(input, p + 8);
      count := count + loHits;
      count := count + hiHits;
      p := p + 16;
    }
    var tail := CountTail(input, p, end);
    count := count + tail;
  }

  // ---- Dispatch ----

  datatype Simd = Avx2 | Neon | Scalar

  /** try_simd_scan: Fewer also when there is no vector unit. */
  method TrySimdScan(simd: Simd, input: Input, p: nat, safeEnd: nat, target: nat) returns (hit: Hit)
    requires p <= safeEnd <= |input.bytes|
    ensures hit.At? ==> target > 0 && NthHit(input, p, safeEnd, target, hit)
    ensures target > 0 && !simd.Scalar? ==> NthHit(input, p, safeEnd, target, hit)
  {
    if target == 0 || p >= safeEnd { return Fewer; }
    match simd
    case Avx2 => hit := ScanAvx2(input, p, safeEnd, target);
    case Neon => hit := ScanNeon(input, p, safeEnd, target);
    case Scalar => hit := Fewer;
  }

  /** scan_nth_delim: the same answer on every dispatch. */
  method ScanNthDelim(simd: Simd, input: Input, p: nat, end: nat, n: nat) returns (hit: Hit)
    requires p <= end <= |input.bytes| && n > 0
    ensures NthHit(input, p, end, n, hit)
  {
    hit := TrySimdScan(simd, input, p, end, n);
    if hit.At? { return; }
    if simd.Scalar? { hit := HopScan(input, p, end, n); }
  }

  /** The fallback: hop from delimiter to delimiter. */
  method HopScan(input: Input, from: nat, end: nat, n: nat) returns (hit: Hit)
    requires from <= end <= |input.bytes| && n > 0
    ensures NthHit(input, from, end, n, hit)
  {
    var p, left := from, n;
    hide Input.Count, Input.Edge;
    while left > 0 && p < end
      invariant from <= p <= end && left <= n && input.Count(p) == input.Count(from) + (n - left)
      invariant left < n ==> from < p && input.Edge(p)
    {
      var next := ScanTail(input, p, end, 1);
      if next.Fewer? {
        return Fewer;
      }
      p := next.pos;
      left := left - 1;
    }
    hit := if left == 0 then At(p) else Fewer;
  }

  /** An answer to the n-th delimiter search is the only one. */
  lemma NthHitUnique(input: Input, p: nat, end: nat, n: nat, a: Hit, b: Hit)
    requires p <= end <= |input.bytes| && NthHit(input, p, end, n, a) && NthHit(input, p, end, n, b)
    ensures a == b
  {
    if a.At? { input.CountMono(a.pos, end); }
    if b.At? { input.CountMono(b.pos, end); }
    if a.At? && b.At? { input.EdgeUnique(a.pos, b.pos, input.Count(p) + n); }
  }

  /** fast_count_delim on every dispatch. */
  method CountDelims(simd: Simd, input: Input, p: nat, end: nat) returns (n: nat)
    requires p <= end <= |input.bytes|
    ensures input.Count(end) == input.Count(p) + n
  {
    match simd
    case Avx2 => n := CountAvx2(input, p, end);
    case Neon => n := CountNeon(input, p, end);
    case Scalar => n := CountTail(input, p, end);
  }
}
