/** Byte-level helpers shared by the transfer loop, the chip model and the
    register logic: MSB-first assembly of a byte from line samples. */
module Bits {

  /** A Java `int` that only ever holds an 8-bit value in the driver. */
  type Byte = bv8

  /** `Gpio.LOW` and `Gpio.HIGH`, as passed to and returned by the GPIO layer. */
  const LOW: Byte := 0
  const HIGH: Byte := 1

  function Bit(b: bool): Byte
  {
    if b then 1 else 0
  }

  /** The mask of bit i, `1 << i`, as a table (see MaskIsShift). */
  function Mask(i: nat): Byte
    requires i < 8
  {
    [0x01, 0x02, 0x04, 0x08, 0x10, 0x20, 0x40, 0x80][i]
  }

  lemma MaskIsShift(i: nat)
    requires i < 8
    ensures Mask(i) == 1 << i
  {
  }

  /** Bit i (0 = least significant) of b. */
  predicate IsSet(b: Byte, i: nat)
    requires i < 8
  {
    b & (1 << i) != 0
  }

  /** The value of the top bit, the first one on the wire. */
  predicate Top(b: Byte)
  {
    b & 0x80 != 0
  }

  /** One step of the transfer loop: shift the reply left and put the new
      sample in the low bit. */
  function ShiftIn(acc: Byte, sample: bool): (r: Byte)
    ensures Top(r) == IsSet(acc, 6)
    ensures IsSet(r, 0) == sample
  {
    (acc << 1) | Bit(sample)
  }

  /** The byte built MSB-first from the n samples f(k), ..., f(k + n - 1). */
  function Gather(f: nat -> bool, k: nat, n: nat): Byte
  {
    if n == 0 then 0 else ShiftIn(Gather(f, k, n - 1), f(k + n - 1))
  }

  /** Gather(f, k, j + 1) extends Gather(f, k, j) by the sample at k + j. */
  lemma GatherSteps(f: nat -> bool, k: nat)
    ensures Gather(f, k, 1) == ShiftIn(0, f(k))
    ensures Gather(f, k, 2) == ShiftIn(Gather(f, k, 1), f(k + 1))
    ensures Gather(f, k, 3) == ShiftIn(Gather(f, k, 2), f(k + 2))
    ensures Gather(f, k, 4) == ShiftIn(Gather(f, k, 3), f(k + 3))
    ensures Gather(f, k, 5) == ShiftIn(Gather(f, k, 4), f(k + 4))
    ensures Gather(f, k, 6) == ShiftIn(Gather(f, k, 5), f(k + 5))
    ensures Gather(f, k, 7) == ShiftIn(Gather(f, k, 6), f(k + 6))
    ensures Gather(f, k, 8) == ShiftIn(Gather(f, k, 7), f(k + 7))
  {
    assert Gather(f, k, 0) == 0;
  }

  /** Eight shifts starting from zero leave the first sample in bit 7 and the
      last in bit 0. */
  lemma ChainBits(a1: Byte, a2: Byte, a3: Byte, a4: Byte, a5: Byte, a6: Byte, a7: Byte, a8: Byte,
                  b0: bool, b1: bool, b2: bool, b3: bool, b4: bool, b5: bool, b6: bool, b7: bool)
    requires a1 == ShiftIn(0, b0) && a2 == ShiftIn(a1, b1) && a3 == ShiftIn(a2, b2) && a4 == ShiftIn(a3, b3)
    requires a5 == ShiftIn(a4, b4) && a6 == ShiftIn(a5, b5) && a7 == ShiftIn(a6, b6) && a8 == ShiftIn(a7, b7)
    ensures IsSet(a8, 7) == b0 && IsSet(a8, 6) == b1 && IsSet(a8, 5) == b2 && IsSet(a8, 4) == b3
    ensures IsSet(a8, 3) == b4 && IsSet(a8, 2) == b5 && IsSet(a8, 1) == b6 && IsSet(a8, 0) == b7
  {
  }

  /** After eight samples, bit 7 - (m - k) of the assembled byte is the
      sample taken at m. */
  lemma GatherMsbFirst(f: nat -> bool, k: nat)
    ensures forall m :: k <= m < k + 8 ==> IsSet(Gather(f, k, 8), 7 - (m - k)) == f(m)
  {
    GatherSteps(f, k);
    ChainBits(Gather(f, k, 1), Gather(f, k, 2), Gather(f, k, 3), Gather(f, k, 4),
              Gather(f, k, 5), Gather(f, k, 6), Gather(f, k, 7), Gather(f, k, 8),
              f(k), f(k + 1), f(k + 2), f(k + 3), f(k + 4), f(k + 5), f(k + 6), f(k + 7));
  }

  /** Eight samples assemble to b exactly when they are the bits of b, top
      bit first. */
  lemma GatherIsBits(f: nat -> bool, k: nat, b: Byte)
    ensures Gather(f, k, 8) == b <==> forall m :: k <= m < k + 8 ==> f(m) == IsSet(b, 7 - (m - k))
  {
    GatherMsbFirst(f, k);
    var g := Gather(f, k, 8);
    if forall m :: k <= m < k + 8 ==> f(m) == IsSet(b, 7 - (m - k)) {
      assert f(k) == IsSet(b, 7) && f(k + 1) == IsSet(b, 6) && f(k + 2) == IsSet(b, 5);
      assert f(k + 3) == IsSet(b, 4) && f(k + 4) == IsSet(b, 3) && f(k + 5) == IsSet(b, 2);
      assert f(k + 6) == IsSet(b, 1) && f(k + 7) == IsSet(b, 0);
      BitsDetermine(g, b);
    }
  }

  /** GatherIsBits with the eight samples written out. */
  lemma GatherEightBits(f: nat -> bool, k: nat, b: Byte)
    ensures Gather(f, k, 8) == b <==>
      f(k) == IsSet(b, 7) && f(k + 1) == IsSet(b, 6) && f(k + 2) == IsSet(b, 5) && f(k + 3) == IsSet(b, 4) &&
      f(k + 4) == IsSet(b, 3) && f(k + 5) == IsSet(b, 2) && f(k + 6) == IsSet(b, 1) && f(k + 7) == IsSet(b, 0)
  {
    var g := Gather(f, k, 8);
    GatherSteps(f, k);
    ChainBits(Gather(f, k, 1), Gather(f, k, 2), Gather(f, k, 3), Gather(f, k, 4),
              Gather(f, k, 5), Gather(f, k, 6), Gather(f, k, 7), g,
              f(k), f(k + 1), f(k + 2), f(k + 3), f(k + 4), f(k + 5), f(k + 6), f(k + 7));
    if f(k) == IsSet(b, 7) && f(k + 1) == IsSet(b, 6) && f(k + 2) == IsSet(b, 5) && f(k + 3) == IsSet(b, 4) &&
       f(k + 4) == IsSet(b, 3) && f(k + 5) == IsSet(b, 2) && f(k + 6) == IsSet(b, 1) && f(k + 7) == IsSet(b, 0) {
      BitsDetermine(g, b);
    }
  }

  /** Two bytes with the same eight bits are equal. */
  lemma BitsDetermine(a: Byte, b: Byte)
    requires IsSet(a, 7) == IsSet(b, 7) && IsSet(a, 6) == IsSet(b, 6)
    requires IsSet(a, 5) == IsSet(b, 5) && IsSet(a, 4) == IsSet(b, 4)
    requires IsSet(a, 3) == IsSet(b, 3) && IsSet(a, 2) == IsSet(b, 2)
    requires IsSet(a, 1) == IsSet(b, 1) && IsSet(a, 0) == IsSet(b, 0)
    ensures a == b
  {
  }

  function Pow2(n: nat): nat { if n == 0 then 1 else 2 * Pow2(n - 1) }

  /** The reply as the transfer loop computes it on a Java `int`: doubled
      at each step, plus one when the sample is high. */
  function Value(f: nat -> bool, k: nat, n: nat): int
  {
    if n == 0 then 0 else 2 * Value(f, k, n - 1) + (if f(k + n - 1) then 1 else 0)
  }

  lemma {:induction false} Pow2Monotone(m: nat, n: nat)
    requires m <= n
    ensures 1 <= Pow2(m) <= Pow2(n)
    decreases n
  {
    if m < n {
      Pow2Monotone(m, n - 1);
    } else if m > 0 {
      Pow2Monotone(m - 1, m - 1);
    }
  }

  lemma Pow2Small(n: nat)
    requires n <= 7
    ensures Pow2(n) <= 0x80
  {
    Pow2Monotone(n, 7);
    assert Pow2(7) == 0x80;
  }

  /** One step of the transfer loop on a byte that still fits in n bits
      agrees with the integer computation and fits in n + 1 bits. */
  lemma ShiftInValue(acc: Byte, v: int, sample: bool, n: nat)
    requires n <= 7
    requires acc as int == v < Pow2(n)
    ensures ShiftIn(acc, sample) as int == 2 * v + (if sample then 1 else 0) < Pow2(n + 1)
  {
    Pow2Small(n);
  }

  /** Computing the reply in 8 bits loses nothing: for up to 8 samples the
      byte equals the unbounded integer the Java loop computes, which stays
      below 2^n, so the reply of a full transfer lies in [0, 255]. */
  lemma {:induction false} GatherValue(f: nat -> bool, k: nat, n: nat)
    requires n <= 8
    ensures Gather(f, k, n) as int == Value(f, k, n) < Pow2(n)
  {
    if n > 0 {
      GatherValue(f, k, n - 1);
      ShiftInValue(Gather(f, k, n - 1), Value(f, k, n - 1), f(k + n - 1), n - 1);
    }
  }
}
