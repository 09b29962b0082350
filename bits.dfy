/**
 * Bit-level vocabulary shared by the POCSAG encoder: single bits of a 32-bit word,
 * most-significant-first bit lists, and population count.
 *
 * Words are `bv32`: every value the encoder builds (codewords, 21-bit data words,
 * 20-bit payloads, 7-bit characters) fits in 32 bits.
 */
module Bits {

  /** One binary digit, kept in a 32-bit word as `(x >> shift) & 1` yields it. */
  type Bit = b: bv32 | b <= 1

  /** Bit number `shift` of `w`, bit 0 being the least significant: `(w >> shift) & 1`. */
  function Digit(w: bv32, shift: nat): Bit
    requires shift < 32
  {
    (w >> shift) & 1
  }

  /**
   * The low `width` bits of `w`, most significant first: bit `width - 1` down to bit 0,
   * one list element per bit.
   */
  function MsbFirst(w: bv32, width: nat): (bits: seq<Bit>)
    requires width <= 32
    ensures |bits| == width
  {
    if width == 0 then [] else [Digit(w, width - 1)] + MsbFirst(w, width - 1)
  }

  /** The number whose binary digits, most significant first, are `bits`: each bit is shifted in at the bottom. */
  function FromMsbFirst(bits: seq<Bit>): bv32
    requires |bits| <= 32
  {
    if |bits| == 0 then 0 else (FromMsbFirst(bits[..|bits| - 1]) << 1) | bits[|bits| - 1]
  }

  /** Number of one bits of `w`: `bin(w).count("1")`. */
  function PopCount(w: bv32): nat
    decreases w
  {
    if w == 0 then 0 else (if w & 1 == 1 then 1 else 0) + PopCount(w >> 1)
  }

  // A shift by a `nat` amount `n` shifts by `n as bv6`; the solver relates `n` and `n + 1` only through these.

  lemma AmountSucc(n: nat)
    requires n < 31
    ensures (n + 1) as bv6 == (n as bv6) + 1
  {
  }

  lemma AmountBelow(n: nat)
    requires n < 31
    ensures n as bv6 < 31
  {
  }

  lemma ShiftRightStep(v: bv32, k: bv6)
    requires k < 31
    ensures v >> (k + 1) == (v >> 1) >> k
  {
  }

  lemma ShiftLeftStep(v: bv32, k: bv6)
    requires k < 31
    ensures v << (k + 1) == (v << k) << 1
  {
  }

  /** Shifting right by `n + 1` is shifting right by one and then by `n`. */
  lemma ShiftRightSucc(v: bv32, n: nat)
    requires n < 31
    ensures v >> (n + 1) == (v >> 1) >> n
  {
    AmountSucc(n);
    AmountBelow(n);
    ShiftRightStep(v, n as bv6);
  }

  /** Shifting left by `n + 1` is shifting left by `n` and then by one. */
  lemma ShiftLeftSucc(v: bv32, n: nat)
    requires n < 31
    ensures v << (n + 1) == (v << n) << 1
  {
    AmountSucc(n);
    AmountBelow(n);
    ShiftLeftStep(v, n as bv6);
  }

  lemma DigitSucc(w: bv32, k: nat)
    requires k < 31
    ensures Digit(w, k + 1) == Digit(w >> 1, k)
  {
    ShiftRightSucc(w, k);
  }

  lemma DigitIgnoresTop(v: bv32, k: nat)
    requires k < 31
    ensures Digit(v & 0x7FFF_FFFF, k) == Digit(v, k)
  {
    assert ((v & 0x7FFF_FFFF) >> k) & 1 == (v >> k) & 1;
  }

  lemma ShiftInParts(v: bv32, b: Bit)
    ensures ((v << 1) | b) >> 1 == v & 0x7FFF_FFFF
    ensures ((v << 1) | b) & 1 == b
  {
  }

  /** After `(v << 1) | b`, bit `k + 1` is the old bit `k`. */
  lemma DigitShiftIn(v: bv32, b: Bit, k: nat)
    requires k < 31
    ensures Digit((v << 1) | b, k + 1) == Digit(v, k)
  {
    DigitSucc((v << 1) | b, k);
    ShiftInParts(v, b);
    DigitIgnoresTop(v, k);
  }

  /** Element `i` of `MsbFirst(w, width)` is bit `width - 1 - i` of `w`. */
  lemma {:induction false} MsbFirstIndex(w: bv32, width: nat, i: nat)
    requires width <= 32
    requires i < width
    ensures MsbFirst(w, width)[i] == Digit(w, width - 1 - i)
    decreases width
  {
    if i > 0 {
      MsbFirstIndex(w, width - 1, i - 1);
    }
  }

  /** Writing out `(v << 1) | b` appends `b` to the digits of `v`. */
  lemma {:induction false} MsbFirstShiftIn(v: bv32, b: Bit, n: nat)
    requires 0 < n <= 32
    ensures MsbFirst((v << 1) | b, n) == MsbFirst(v, n - 1) + [b]
    decreases n
  {
    var w := (v << 1) | b;
    if n == 1 {
      ShiftInParts(v, b);
      assert Digit(w, 0) == b;
    } else {
      MsbFirstShiftIn(v, b, n - 1);
      DigitShiftIn(v, b, n - 2);
      assert MsbFirst(w, n) == [Digit(v, n - 2)] + (MsbFirst(v, n - 2) + [b]);
    }
  }

  lemma WriteBackSnoc(init: seq<Bit>, b: Bit)
    requires |init| < 32
    requires MsbFirst(FromMsbFirst(init), |init|) == init
    ensures MsbFirst(FromMsbFirst(init + [b]), |init| + 1) == init + [b]
  {
    var v := FromMsbFirst(init);
    assert (init + [b])[..|init|] == init;
    assert FromMsbFirst(init + [b]) == (v << 1) | b;
    MsbFirstShiftIn(v, b, |init| + 1);
  }

  lemma RoundTripSnoc(bits: seq<Bit>, init: seq<Bit>, b: Bit)
    requires 0 < |bits| <= 32
    requires init == bits[..|bits| - 1] && b == bits[|bits| - 1]
    requires MsbFirst(FromMsbFirst(init), |init|) == init
    ensures MsbFirst(FromMsbFirst(bits), |bits|) == bits
  {
    WriteBackSnoc(init, b);
    assert init + [b] == bits;
  }

  /** Reading a bit list into a number and writing that number back out gives the same list. */
  lemma {:induction false} MsbFirstOfFromMsbFirst(bits: seq<Bit>)
    requires |bits| <= 32
    ensures MsbFirst(FromMsbFirst(bits), |bits|) == bits
    decreases |bits|
  {
    if |bits| > 0 {
      var init := bits[..|bits| - 1];
      MsbFirstOfFromMsbFirst(init);
      RoundTripSnoc(bits, init, bits[|bits| - 1]);
    }
  }

  /** The low `n` bits set: `(1 << n) - 1`. */
  function LowMask(n: nat): (m: bv32)
  {
    if n == 0 then 0 else (LowMask(n - 1) << 1) | 1
  }

  lemma LowMaskStep(p: bv32)
    ensures ((p - 1) << 1) | 1 == (p << 1) - 1
  {
  }

  /** `LowMask(n)` is `(1 << n) - 1`. */
  lemma {:induction false} LowMaskIsShift(n: nat)
    requires n <= 31
    ensures LowMask(n) == (1 << n) - 1
    decreases n
  {
    if n > 0 {
      LowMaskIsShift(n - 1);
      ShiftLeftSucc(1, n - 1);
      LowMaskStep(1 << (n - 1));
    }
  }

  lemma ShiftInMasked(v: bv32, b: Bit, m: bv32)
    ensures v & m == v ==> ((v << 1) | b) & ((m << 1) | 1) == (v << 1) | b
  {
  }

  lemma FitsSnoc(bits: seq<Bit>)
    requires 0 < |bits| <= 32
    requires FromMsbFirst(bits[..|bits| - 1]) & LowMask(|bits| - 1) == FromMsbFirst(bits[..|bits| - 1])
    ensures FromMsbFirst(bits) & LowMask(|bits|) == FromMsbFirst(bits)
  {
    ShiftInMasked(FromMsbFirst(bits[..|bits| - 1]), bits[|bits| - 1], LowMask(|bits| - 1));
  }

  /** A list of `n` bits reads as a number with no bit set above bit `n - 1`. */
  lemma {:induction false} FromMsbFirstFits(bits: seq<Bit>)
    requires |bits| <= 32
    ensures FromMsbFirst(bits) & LowMask(|bits|) == FromMsbFirst(bits)
    decreases |bits|
  {
    if |bits| > 0 {
      FromMsbFirstFits(bits[..|bits| - 1]);
      FitsSnoc(bits);
    }
  }

  /** The digits of `w` from bit `width - 1` down to bit 0 are the digits of `w >> 1` followed by bit 0. */
  lemma {:induction false} MsbFirstSplitLast(w: bv32, width: nat)
    requires 0 < width <= 32
    ensures MsbFirst(w, width) == MsbFirst(w >> 1, width - 1) + [Digit(w, 0)]
    decreases width
  {
    if width > 1 {
      MsbFirstSplitLast(w, width - 1);
      DigitSucc(w, width - 2);
      assert MsbFirst(w, width) == [Digit(w >> 1, width - 2)] + (MsbFirst(w >> 1, width - 2) + [Digit(w, 0)]);
    }
  }

  lemma LowBitsStep(w: bv32, m: bv32)
    ensures (((w >> 1) & m) << 1) | ((w >> 0) & 1) == w & ((m << 1) | 1)
  {
  }

  /** The low `width` bits of `w` are the low `width - 1` bits of `w >> 1`, shifted back, and bit 0. */
  lemma LowBitsJoin(w: bv32, width: nat)
    requires 0 < width <= 32
    ensures (((w >> 1) & LowMask(width - 1)) << 1) | Digit(w, 0) == w & LowMask(width)
  {
    LowBitsStep(w, LowMask(width - 1));
  }

  /** Reading `init + [b]` shifts the reading of `init` left and fills bit 0 with `b`. */
  lemma ReadSnoc(init: seq<Bit>, b: Bit)
    requires |init| < 32
    ensures FromMsbFirst(init + [b]) == (FromMsbFirst(init) << 1) | b
  {
    assert (init + [b])[..|init|] == init;
  }

  /** Writing out the low `width` bits of `w` and reading them back gives `w` with the higher bits cleared. */
  lemma {:induction false} FromMsbFirstOfMsbFirst(w: bv32, width: nat)
    requires width <= 32
    ensures FromMsbFirst(MsbFirst(w, width)) == w & LowMask(width)
    decreases width
  {
    if width > 0 {
      var init := MsbFirst(w >> 1, width - 1);
      MsbFirstSplitLast(w, width);
      ReadSnoc(init, Digit(w, 0));
      FromMsbFirstOfMsbFirst(w >> 1, width - 1);
      LowBitsJoin(w, width);
    }
  }

  lemma ShiftInCount(w: bv32, b: Bit)
    requires w < 0x8000_0000
    ensures ((w << 1) | b) >> 1 == w
    ensures ((w << 1) | b) & 1 == b
    ensures (w << 1) | b != 0 || (w == 0 && b == 0)
  {
  }

  /** Shifting a 31-bit value left and filling bit 0 with `b` adds exactly `b` one bits. */
  lemma PopCountShiftIn(w: bv32, b: Bit)
    requires w < 0x8000_0000
    ensures PopCount((w << 1) | b) == PopCount(w) + (if b == 1 then 1 else 0)
  {
    ShiftInCount(w, b);
  }
}
