/** 32-bit words, bit ranges and the unsigned arithmetic the decoder is written in. */
module Words {
  import opened Arithmetic

  const TWO32: int := 0x1_0000_0000
  const TWO63: int := 0x8000_0000_0000_0000
  const TWO64: int := 0x1_0000_0000_0000_0000

  /** One 32-bit word of a readout buffer. */
  type Word = w: int | 0 <= w < 0x1_0000_0000

  /** A C++ int. */
  type Int32 = x: int | -0x8000_0000 <= x < 0x8000_0000

  const MAX_INT: int := 0x7FFF_FFFF

  /** One byte of a buffer or file. */
  type Byte = x: int | 0 <= x < 0x100

  /** (lowest bit, highest bit), both included. */
  datatype BitRange = BitRange(lo: nat, hi: nat)

  // The ranges and bits that the tables name.
  const BITS_0_5 := BitRange(0, 5)
  const BITS_6_11 := BitRange(6, 11)
  const BITS_12_15 := BitRange(12, 15)
  const BITS_24_31 := BitRange(24, 31)
  const BITS_0_9 := BitRange(0, 9)
  const BITS_0_11 := BitRange(0, 11)
  const BITS_0_13 := BitRange(0, 13)
  const BITS_0_14 := BitRange(0, 14)
  const BITS_0_15 := BitRange(0, 15)
  const BITS_0_20 := BitRange(0, 20)
  const BITS_0_21 := BitRange(0, 21)
  const BITS_0_23 := BitRange(0, 23)
  const BITS_0_27 := BitRange(0, 27)
  const BITS_0_29 := BitRange(0, 29)
  const BITS_0_30 := BitRange(0, 30)
  const BITS_0_31 := BitRange(0, 31)
  const BITS_16_20 := BitRange(16, 20)
  const BITS_16_23 := BitRange(16, 23)
  const BITS_16_27 := BitRange(16, 27)
  const BITS_16_29 := BitRange(16, 29)
  const BITS_16_31 := BitRange(16, 31)
  const BITS_24_25 := BitRange(24, 25)
  const BITS_24_26 := BitRange(24, 26)
  const BITS_27_31 := BitRange(27, 31)
  const BITS_28_31 := BitRange(28, 31)
  const BITS_31_31 := BitRange(31, 31)
  const BIT_0: nat := 0
  const BIT_4: nat := 4
  const BIT_5: nat := 5
  const BIT_6: nat := 6
  const BIT_7: nat := 7
  const BIT_8: nat := 8
  const BIT_12: nat := 12
  const BIT_14: nat := 14
  const BIT_15: nat := 15
  const BIT_26: nat := 26
  const BIT_27: nat := 27
  const BIT_28: nat := 28
  const BIT_29: nat := 29
  const BIT_30: nat := 30
  const BIT_31: nat := 31

  function Pow2(n: nat): (p: nat)
    ensures p >= 1
  {
    if n == 0 then 1 else 2 * Pow2(n - 1)
  }

  function RangeWidth(r: BitRange): nat {
    if r.lo <= r.hi then r.hi - r.lo + 1 else 0
  }

  /** x >> n, one bit at a time. */
  function Shr(x: nat, n: nat): nat {
    if n == 0 then x else Shr(x / 2, n - 1)
  }

  /** x << n. */
  function Shl(x: nat, n: nat): nat {
    if n == 0 then x else 2 * Shl(x, n - 1)
  }

  /** The n lowest bits of x. */
  function Low(x: nat, n: nat): nat {
    if n == 0 then 0 else x % 2 + 2 * Low(x / 2, n - 1)
  }

  /** The bits of a range, right aligned. */
  function ExtractBits(w: nat, r: BitRange): nat {
    Low(Shr(w, r.lo), RangeWidth(r))
  }

  predicate Bit(w: nat, k: nat) {
    Shr(w, k) % 2 == 1
  }

  lemma {:induction false} RightShift(x: nat, n: nat)
    ensures Shr(x, n) == x / Pow2(n)
  {
    if n > 0 {
      RightShift(x / 2, n - 1);
      HalvedDivision(x, Pow2(n - 1));
    }
  }

  lemma {:induction false} LeftShift(x: nat, n: nat)
    ensures Shl(x, n) == x * Pow2(n)
  {
    if n > 0 {
      LeftShift(x, n - 1);
      DoubledProduct(x, Pow2(n - 1));
    }
  }

  lemma DoubledProduct(x: nat, p: nat)
    ensures x * (2 * p) == 2 * (x * p)
  {
  }

  lemma {:induction false} LowDigits(x: nat, n: nat)
    ensures Low(x, n) == x % Pow2(n)
  {
    if n > 0 {
      LowDigits(x / 2, n - 1);
      HalvedDivision(x, Pow2(n - 1));
    }
  }

  lemma ShiftsAreProducts(x: nat, n: nat)
    ensures Shr(x, n) == x / Pow2(n)
    ensures Shl(x, n) == x * Pow2(n)
    ensures Low(x, n) == x % Pow2(n)
  {
    hide Shr, Shl, Low, Pow2;
    RightShift(x, n);
    LeftShift(x, n);
    LowDigits(x, n);
  }

  /** Dividing by twice p is halving, then dividing by p. */
  lemma HalvedDivision(x: nat, p: nat)
    requires p > 0
    ensures x / 2 / p == x / (2 * p)
    ensures x % (2 * p) == x % 2 + 2 * (x / 2 % p)
  {
    var h := x / 2;
    var q, r := h / p, h % p;
    Division(h, p);
    PeriodsDouble(q, p);
    DivisionUnique(x, 2 * p, q, 2 * r + x % 2);
  }

  lemma {:induction false} PeriodsDouble(q: nat, p: nat)
    ensures Periods(q, 2 * p) == 2 * Periods(q, p)
  {
    if q > 0 {
      PeriodsDouble(q - 1, p);
    }
  }

  /** `word & mask` is not zero, for a mask given as its runs of ones. */
  predicate AnyBit(w: nat, mask: seq<BitRange>) {
    exists i :: 0 <= i < |mask| && ExtractBits(w, mask[i]) != 0
  }

  /** What every field read by the decoder is, as a division and remainder by a literal. */
  lemma FieldTable(w: nat)
    ensures ExtractBits(w, BITS_0_31) == w % 0x1_0000_0000
    ensures ExtractBits(w, BITS_0_30) == w % 0x8000_0000
    ensures ExtractBits(w, BITS_0_29) == w % 0x4000_0000
    ensures ExtractBits(w, BITS_0_23) == w % 0x100_0000
    ensures ExtractBits(w, BITS_0_21) == w % 0x40_0000
    ensures ExtractBits(w, BITS_0_20) == w % 0x20_0000
    ensures ExtractBits(w, BITS_0_15) == w % 0x1_0000
    ensures ExtractBits(w, BITS_0_13) == w % 0x4000
    ensures ExtractBits(w, BITS_0_11) == w % 0x1000
    ensures ExtractBits(w, BITS_16_29) == (w / 0x1_0000) % 0x4000
    ensures ExtractBits(w, BITS_16_27) == (w / 0x1_0000) % 0x1000
    ensures ExtractBits(w, BITS_16_20) == (w / 0x1_0000) % 0x20
    ensures ExtractBits(w, BITS_16_23) == (w / 0x1_0000) % 0x100
    ensures ExtractBits(w, BITS_24_26) == (w / 0x100_0000) % 8
    ensures ExtractBits(w, BITS_31_31) == (w / 0x8000_0000) % 2
    ensures ExtractBits(w, BITS_28_31) == (w / 0x1000_0000) % 0x10
    ensures ExtractBits(w, BITS_24_25) == (w / 0x100_0000) % 4
    ensures ExtractBits(w, BITS_16_31) == (w / 0x1_0000) % 0x1_0000
    ensures ExtractBits(w, BITS_27_31) == (w / 0x800_0000) % 0x20
    ensures ExtractBits(w, BITS_0_27) == w % 0x1000_0000
    ensures ExtractBits(w, BITS_0_14) == w % 0x8000
    ensures ExtractBits(w, BITS_0_9) == w % 0x400
  {
    PowerTable();
    ShiftsAreProducts(w, 16);
    ShiftsAreProducts(w, 24);
    ShiftsAreProducts(w, 27);
    ShiftsAreProducts(w, 28);
    ShiftsAreProducts(w, 31);
    ShiftsAreProducts(w, 32);
    ShiftsAreProducts(w, 30);
    ShiftsAreProducts(w, 22);
    ShiftsAreProducts(w, 21);
    ShiftsAreProducts(w, 14);
    ShiftsAreProducts(w, 12);
    ShiftsAreProducts(Shr(w, 16), 14);
    ShiftsAreProducts(Shr(w, 16), 12);
    ShiftsAreProducts(Shr(w, 16), 5);
    ShiftsAreProducts(Shr(w, 16), 8);
    ShiftsAreProducts(Shr(w, 24), 3);
    ShiftsAreProducts(Shr(w, 31), 1);
    ShiftsAreProducts(Shr(w, 28), 4);
    ShiftsAreProducts(Shr(w, 24), 2);
    ShiftsAreProducts(Shr(w, 16), 16);
    ShiftsAreProducts(Shr(w, 27), 5);
    ShiftsAreProducts(w, 15);
    ShiftsAreProducts(w, 10);
  }

  lemma BitTable(w: nat)
    ensures Bit(w, BIT_0) <==> w % 2 == 1
    ensures Bit(w, BIT_4) <==> (w / 0x10) % 2 == 1
    ensures Bit(w, BIT_5) <==> (w / 0x20) % 2 == 1
    ensures Bit(w, BIT_7) <==> (w / 0x80) % 2 == 1
    ensures Bit(w, BIT_12) <==> (w / 0x1000) % 2 == 1
    ensures Bit(w, BIT_15) <==> (w / 0x8000) % 2 == 1
    ensures Bit(w, BIT_14) <==> (w / 0x4000) % 2 == 1
    ensures Bit(w, BIT_26) <==> (w / 0x400_0000) % 2 == 1
    ensures Bit(w, BIT_27) <==> (w / 0x800_0000) % 2 == 1
    ensures Bit(w, BIT_28) <==> (w / 0x1000_0000) % 2 == 1
    ensures Bit(w, BIT_29) <==> (w / 0x2000_0000) % 2 == 1
    ensures Bit(w, BIT_30) <==> (w / 0x4000_0000) % 2 == 1
    ensures Bit(w, BIT_31) <==> (w / 0x8000_0000) % 2 == 1
  {
    PowerTable();
    ShiftsAreProducts(w, 0);
    ShiftsAreProducts(w, 4);
    ShiftsAreProducts(w, 5);
    ShiftsAreProducts(w, 7);
    ShiftsAreProducts(w, 12);
    ShiftsAreProducts(w, 15);
    ShiftsAreProducts(w, 14);
    ShiftsAreProducts(w, 26);
    ShiftsAreProducts(w, 27);
    ShiftsAreProducts(w, 28);
    ShiftsAreProducts(w, 29);
    ShiftsAreProducts(w, 30);
    ShiftsAreProducts(w, 31);
  }

  lemma PowerTable()
    ensures Pow2(0) == 1 && Pow2(1) == 2 && Pow2(2) == 4 && Pow2(3) == 8 && Pow2(4) == 0x10
    ensures Pow2(5) == 0x20 && Pow2(6) == 0x40 && Pow2(7) == 0x80 && Pow2(8) == 0x100 && Pow2(10) == 0x400
    ensures Pow2(12) == 0x1000 && Pow2(14) == 0x4000 && Pow2(15) == 0x8000 && Pow2(16) == 0x1_0000
    ensures Pow2(21) == 0x20_0000 && Pow2(22) == 0x40_0000 && Pow2(24) == 0x100_0000
    ensures Pow2(26) == 0x400_0000 && Pow2(27) == 0x800_0000 && Pow2(28) == 0x1000_0000
    ensures Pow2(29) == 0x2000_0000 && Pow2(30) == 0x4000_0000 && Pow2(31) == 0x8000_0000
    ensures Pow2(32) == 0x1_0000_0000
    ensures Pow2(46) == 0x4000_0000_0000 && Pow2(47) == 0x8000_0000_0000
  {
  }

  /** A field is read back from a word that has it at digit position `d`, with `m` values. */
  lemma FieldRead(w: nat, r: BitRange, d: nat, m: nat, below: nat, field: nat, above: nat)
    requires Pow2(r.lo) == d && Pow2(RangeWidth(r)) == m
    requires below < d && field < m && w == below + d * (field + m * above)
    ensures ExtractBits(w, r) == field
  {
    hide Pow2, RangeWidth;
    DigitRead(w, d, m, below, field, above);
    ShiftsAreProducts(w, r.lo);
    ShiftsAreProducts(Shr(w, r.lo), RangeWidth(r));
  }

  lemma FlagRead(w: nat, k: nat, d: nat, below: nat, flag: nat, above: nat)
    requires Pow2(k) == d && below < d && flag < 2 && w == below + d * (flag + 2 * above)
    ensures Bit(w, k) <==> flag == 1
  {
    hide Pow2;
    DigitRead(w, d, 2, below, flag, above);
    ShiftsAreProducts(w, k);
  }

  lemma DigitRead(w: nat, d: nat, m: nat, below: nat, field: nat, above: nat)
    requires below < d && field < m && w == below + d * (field + m * above)
    ensures (w / d) % m == field
  {
    var x := field + m * above;
    PeriodsIsProduct(x, d);
    DivisionUnique(w, d, x, below);
    PeriodsIsProduct(above, m);
    DivisionUnique(x, m, above, field);
  }
}
