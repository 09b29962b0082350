/**
 * BCH(31,21) check bits of POCSAG codewords: the 10-bit remainder of
 * `data · x^10` divided, over GF(2), by the generator polynomial 0x769
 * (x^10 + x^9 + x^8 + x^6 + x^5 + x^3 + 1).
 */
module Bch {
  import opened Bits

  /** The BCH(31,21) generator polynomial. */
  const Generator: bv32 := 0x769

  /** `x` has no bit set at position `n` or above. */
  predicate Fits(x: bv32, n: nat)
  {
    x & LowMask(n) == x
  }

  /** `1 << n`: the single bit just above `LowMask(n)`. */
  function Top(n: nat): bv32
  {
    LowMask(n) + 1
  }

  /** `Generator << i` */
  function GenAt(i: nat): bv32
    decreases i
  {
    if i == 0 then Generator else GenAt(i - 1) << 1
  }

  /** One round of the division loop: cancel bit `i + 10` with `Generator << i` when it is set. */
  function Step(reg: bv32, i: nat): bv32
  {
    if reg & Top(i + 10) != 0 then reg ^ GenAt(i) else reg
  }

  /** The register after rounds `i = k - 1, k - 2, ..., 0` of `_calculate_bch_parity`'s loop. */
  function Reduce(reg: bv32, k: nat): bv32
    decreases k
  {
    if k == 0 then reg else Reduce(Step(reg, k - 1), k - 1)
  }

  /** `_calculate_bch_parity(data, data_bits)` as a value: the low 10 bits of the reduced register. */
  function Parity(data: bv32, dataBits: nat): bv32
  {
    Reduce(data << 10, dataBits) & 0x3FF
  }

  /**
   * `w` is a sum (exclusive or) of some of the words `Generator << j` for `j < k`: a GF(2)
   * multiple of the generator by a polynomial of degree below `k`.
   */
  ghost predicate InSpan(w: bv32, k: nat)
    decreases k
  {
    if k == 0 then w == 0 else InSpan(w, k - 1) || InSpan(w ^ GenAt(k - 1), k - 1)
  }

  /** A BCH(31,21) codeword without its parity bit: a GF(2) multiple of the generator below `2^31`. */
  ghost predicate IsCodeword(w: bv32)
  {
    InSpan(w, 21)
  }

  /** One pass of `_calculate_bch_parity`'s loop body: when bit `i + 10` is set, cancel it with the generator shifted by `i`. */
  method DivisionRound(reg: bv32, i: nat) returns (next: bv32)
    requires i <= 21
    ensures next == Step(reg, i)
  {
    next := reg;
    if reg & (1 << (i + 10)) != 0 {
      StepTaken(reg, i);
      next := reg ^ (Generator << i);
    } else {
      StepSkipped(reg, i);
    }
  }

  /** `_calculate_bch_parity`: polynomial division of `data << 10` by the generator, one bit per round. */
  method CalculateBchParity(data: bv32, dataBits: nat) returns (parity: bv32)
    requires dataBits <= 21
    requires data < 0x40_0000
    ensures parity == Parity(data, dataBits)
  {
    var reg := data << 10;
    var i: nat := dataBits;
    while i > 0
      invariant i <= dataBits
      invariant Reduce(reg, i) == Reduce(data << 10, dataBits)
    {
      i := i - 1;
      reg := DivisionRound(reg, i);
    }
    parity := reg & 0x3FF;
  }

  // ---------------------------------------------------------------------------
  // Bit facts about masks and the shifted generator

  lemma {:induction false} TenBitsBelow(x: bv32)
    ensures x & 0x3FF < 1024
  {
  }

  lemma {:induction false} MaskGrows(x: bv32, m: bv32)
    ensures m & (m + 1) == 0 && x & m == x ==> x & ((m << 1) | 1) == x
  {
  }

  lemma {:induction false} MaskShape(m: bv32)
    ensures m & (m + 1) == 0 ==> ((m << 1) | 1) & (((m << 1) | 1) + 1) == 0
  {
  }

  /** `LowMask(n)` is a run of low one bits, so `Top(n)` is a single bit. */
  lemma {:induction false} LowMaskRun(n: nat)
    ensures LowMask(n) & (LowMask(n) + 1) == 0
    decreases n
  {
    if n > 0 {
      LowMaskRun(n - 1);
      MaskShape(LowMask(n - 1));
    }
  }

  lemma {:induction false} FitsStep(x: bv32, n: nat)
    requires Fits(x, n)
    ensures Fits(x, n + 1)
  {
    LowMaskRun(n);
    MaskGrows(x, LowMask(n));
  }

  /** Fitting in `a` bits implies fitting in any wider field. */
  lemma {:induction false} FitsMono(x: bv32, a: nat, b: nat)
    requires a <= b
    requires Fits(x, a)
    ensures Fits(x, b)
    decreases b
  {
    if a < b {
      FitsMono(x, a, b - 1);
      FitsStep(x, b - 1);
    }
  }

  lemma {:induction false} FitsXor(a: bv32, b: bv32, m: bv32)
    ensures a & m == a && b & m == b ==> (a ^ b) & m == a ^ b
  {
  }

  /** Exclusive or of a value of `n` bits and one of `n + 1` bits has `n + 1` bits. */
  lemma {:induction false} FitsXorStep(y: bv32, g: bv32, w: bv32, n: nat)
    requires Fits(y, n) && Fits(g, n + 1)
    requires w == y ^ g
    ensures Fits(w, n + 1)
  {
    FitsStep(y, n);
    FitsXor(y, g, LowMask(n + 1));
  }

  lemma {:induction false} Pow2Small(n: nat)
    ensures n <= 29 ==> (1 << n) - 1 < 0x2000_0000 as bv32
  {
  }

  /** Masks of at most 29 bits are below `2^29`. */
  lemma {:induction false} LowMaskSmall(n: nat)
    requires n <= 29
    ensures LowMask(n) < 0x2000_0000
  {
    LowMaskIsShift(n);
    Pow2Small(n);
  }

  lemma {:induction false} LowMaskTen(x: bv32, n: nat)
    requires n == 10
    ensures Fits(x, n) <==> x & 0x3FF == x
  {
    LowMaskIsShift(n);
  }

  lemma {:induction false} LowMaskThirtyOne(x: bv32, n: nat)
    requires n == 31
    ensures Fits(x, n) <==> x < 0x8000_0000
  {
    LowMaskIsShift(n);
  }

  lemma {:induction false} GenShiftFits(g: bv32, m: bv32, m1: bv32, m2: bv32, g2: bv32)
    ensures m & (m + 1) == 0 && m < 0x2000_0000 && m1 == (m << 1) | 1 && m2 == (m1 << 1) | 1 &&
            g & m1 == g && g2 == g << 1
            ==> g2 & m2 == g2
  {
  }

  lemma {:induction false} GenShiftTop(g: bv32, m: bv32, m1: bv32, g2: bv32)
    ensures m & (m + 1) == 0 && m < 0x2000_0000 && m1 == (m << 1) | 1 &&
            g & (m + 1) != 0 && g2 == g << 1
            ==> g2 & (m1 + 1) != 0
  {
  }

  lemma {:induction false} GenBase(i: nat)
    requires i == 0
    ensures Fits(GenAt(i), i + 11)
    ensures GenAt(i) & Top(i + 10) != 0
  {
    LowMaskIsShift(i + 11);
    LowMaskIsShift(i + 10);
  }

  lemma {:induction false} LowMaskUnfold(n: nat)
    ensures n > 0 ==> LowMask(n) == (LowMask(n - 1) << 1) | 1
  {
  }

  lemma {:induction false} GenAtUnfold(i: nat)
    ensures i > 0 ==> GenAt(i) == GenAt(i - 1) << 1
  {
  }

  lemma {:induction false} GenFitsStep(i: nat)
    requires 0 < i <= 20
    requires Fits(GenAt(i - 1), i + 10)
    ensures Fits(GenAt(i), i + 11)
  {
    LowMaskUnfold(i + 10);
    LowMaskUnfold(i + 11);
    GenAtUnfold(i);
    LowMaskRun(i + 9);
    LowMaskSmall(i + 9);
    GenShiftFits(GenAt(i - 1), LowMask(i + 9), LowMask(i + 10), LowMask(i + 11), GenAt(i));
  }

  lemma {:induction false} GenTopStep(i: nat)
    requires 0 < i <= 20
    requires GenAt(i - 1) & Top(i + 9) != 0
    ensures GenAt(i) & Top(i + 10) != 0
  {
    LowMaskUnfold(i + 10);
    GenAtUnfold(i);
    LowMaskRun(i + 9);
    LowMaskSmall(i + 9);
    GenShiftTop(GenAt(i - 1), LowMask(i + 9), LowMask(i + 10), GenAt(i));
  }

  /** `Generator << i` has its top bit at position `i + 10`. */
  lemma {:induction false} GenShifted(i: nat)
    requires i <= 20
    ensures Fits(GenAt(i), i + 11)
    ensures GenAt(i) & Top(i + 10) != 0
    decreases i
  {
    if i == 0 {
      GenBase(i);
    } else {
      GenShifted(i - 1);
      GenFitsStep(i);
      GenTopStep(i);
    }
  }

  lemma {:induction false} CancelSet(reg: bv32, m: bv32, m1: bv32, g: bv32, s: bv32)
    ensures m & (m + 1) == 0 && m1 == (m << 1) | 1 && reg & m1 == reg && g & m1 == g &&
            reg & (m + 1) != 0 && g & (m + 1) != 0 && s == reg ^ g
            ==> s & m == s
  {
  }

  lemma {:induction false} CancelClear(reg: bv32, m: bv32, m1: bv32)
    ensures m & (m + 1) == 0 && m1 == (m << 1) | 1 && reg & m1 == reg && reg & (m + 1) == 0
            ==> reg & m == reg
  {
  }

  lemma {:induction false} ShrinkTaken(reg: bv32, i: nat)
    requires i <= 20
    requires Fits(reg, i + 11)
    requires reg & Top(i + 10) != 0
    ensures Fits(reg ^ GenAt(i), i + 10)
  {
    GenShifted(i);
    LowMaskRun(i + 10);
    LowMaskUnfold(i + 11);
    CancelSet(reg, LowMask(i + 10), LowMask(i + 11), GenAt(i), reg ^ GenAt(i));
  }

  lemma {:induction false} ShrinkSkipped(reg: bv32, i: nat)
    requires Fits(reg, i + 11)
    requires reg & Top(i + 10) == 0
    ensures Fits(reg, i + 10)
  {
    LowMaskRun(i + 10);
    LowMaskUnfold(i + 11);
    CancelClear(reg, LowMask(i + 10), LowMask(i + 11));
  }

  /** One round clears bit `i + 10` of a register that fits in `i + 11` bits. */
  lemma {:induction false} StepShrinks(reg: bv32, i: nat)
    requires i <= 20
    requires Fits(reg, i + 11)
    ensures Fits(Step(reg, i), i + 10)
  {
    if reg & Top(i + 10) != 0 {
      ShrinkTaken(reg, i);
    } else {
      ShrinkSkipped(reg, i);
    }
  }

  /** `GenAt(i)` is `Generator << i`. */
  lemma {:induction false} GenAtIsShift(i: nat)
    requires i <= 21
    ensures GenAt(i) == Generator << i
    decreases i
  {
    if i > 0 {
      GenAtIsShift(i - 1);
      ShiftLeftSucc(Generator, i - 1);
    }
  }

  lemma {:induction false} TopIsShift(n: nat)
    requires n <= 31
    ensures Top(n) == 1 << n
  {
    LowMaskIsShift(n);
  }


  lemma {:induction false} TopBitSet(reg: bv32, i: nat)
    requires i <= 21
    requires reg & (1 << (i + 10)) != 0
    ensures reg & Top(i + 10) != 0
  {
    TopIsShift(i + 10);
  }

  lemma {:induction false} TakenRound(reg: bv32, i: nat)
    requires reg & Top(i + 10) != 0
    ensures Step(reg, i) == reg ^ GenAt(i)
  {
  }

  /** When bit `i + 10` is set, the round xors in `Generator << i`, as the loop body does. */
  lemma {:induction false} StepTaken(reg: bv32, i: nat)
    requires i <= 21
    requires reg & (1 << (i + 10)) != 0
    ensures Step(reg, i) == reg ^ (Generator << i)
  {
    TopBitSet(reg, i);
    TakenRound(reg, i);
    GenAtIsShift(i);
  }

  /** When bit `i + 10` is clear, the round leaves the register alone, as the loop body does. */
  lemma {:induction false} StepSkipped(reg: bv32, i: nat)
    requires i <= 21
    requires reg & (1 << (i + 10)) == 0
    ensures Step(reg, i) == reg
  {
    TopIsShift(i + 10);
  }

  lemma {:induction false} ReduceSucc(reg: bv32, j: nat)
    ensures Reduce(reg, j + 1) == Reduce(Step(reg, j), j)
  {
  }

  /** `k` rounds of the division loop leave a remainder below `2^10`. */
  lemma {:induction false} ReduceFits(reg: bv32, k: nat)
    requires k <= 21
    requires Fits(reg, k + 10)
    ensures Reduce(reg, k) & 0x3FF == Reduce(reg, k)
    decreases k
  {
    if k > 0 {
      StepShrinks(reg, k - 1);
      ReduceFits(Step(reg, k - 1), k - 1);
      ReduceSucc(reg, k - 1);
    } else {
      LowMaskTen(reg, k + 10);
    }
  }

  // ---------------------------------------------------------------------------
  // Multiples of the generator

  lemma {:induction false} XorSelf(x: bv32)
    ensures x ^ x == 0
  {
  }

  lemma {:induction false} SpanKeep(w: bv32, i: nat)
    requires InSpan(w, i)
    ensures InSpan(w, i + 1)
  {
  }

  /** Adding `Generator << (k - 1)` to a multiple of degree below `k - 1` gives one of degree below `k`. */
  lemma {:induction false} SpanTake(x: bv32, y: bv32, k: nat)
    requires 0 < k
    requires y == x ^ GenAt(k - 1)
    requires InSpan(y, k - 1)
    ensures InSpan(x, k)
  {
  }

  lemma {:induction false} SpanZero(reg: bv32)
    ensures InSpan(reg ^ Reduce(reg, 0), 0)
  {
    XorSelf(reg);
  }

  lemma {:induction false} SpanSame(a: bv32, b: bv32, k: nat)
    requires a == b
    requires InSpan(a, k)
    ensures InSpan(b, k)
  {
  }

  lemma {:induction false} XorShift(reg: bv32, g: bv32, r: bv32, s: bv32, d1: bv32, d2: bv32)
    ensures s == reg ^ g && d1 == s ^ r && d2 == reg ^ r ==> d1 == d2 ^ g
  {
  }

  lemma {:induction false} StepCases(reg: bv32, i: nat)
    ensures Step(reg, i) == reg || Step(reg, i) == reg ^ GenAt(i)
  {
  }

  /** One round changes the register by nothing or by `Generator << i`, a multiple of the generator. */
  lemma {:induction false} StepSpan(reg: bv32, s: bv32, r: bv32, d1: bv32, d2: bv32, i: nat)
    requires s == Step(reg, i)
    requires d1 == s ^ r && d2 == reg ^ r
    requires InSpan(d1, i)
    ensures InSpan(d2, i + 1)
  {
    StepCases(reg, i);
    if s == reg {
      SpanKeep(d2, i);
    } else {
      XorShift(reg, GenAt(i), r, s, d1, d2);
      SpanTake(d2, d1, i + 1);
    }
  }

  /** One round followed by `j` more leaves what `j + 1` rounds leave. */
  lemma {:induction false} RemainderSucc(reg: bv32, k: nat, j: nat, s: bv32, r: bv32)
    requires k == j + 1
    requires s == Step(reg, j) && r == Reduce(s, j)
    ensures Reduce(reg, k) == r
  {
    ReduceSucc(reg, j);
  }

  lemma {:induction false} StepSpanTo(reg: bv32, s: bv32, r: bv32, q: bv32, k: nat, j: nat)
    requires k == j + 1
    requires s == Step(reg, j) && q == r
    requires InSpan(s ^ r, j)
    ensures InSpan(reg ^ q, k)
  {
    StepSpan(reg, s, r, s ^ r, reg ^ r, j);
  }

  lemma {:induction false} ReduceSpanStep(reg: bv32, k: nat, j: nat, s: bv32, r: bv32)
    requires k == j + 1
    requires s == Step(reg, j) && r == Reduce(s, j)
    requires InSpan(s ^ r, j)
    ensures InSpan(reg ^ Reduce(reg, k), k)
  {
    RemainderSucc(reg, k, j, s, r);
    StepSpanTo(reg, s, r, Reduce(reg, k), k, j);
  }

  /** `k` rounds of the division loop change the register by a multiple of the generator of degree below `k`. */
  lemma {:induction false} ReduceSpan(reg: bv32, k: nat)
    ensures InSpan(reg ^ Reduce(reg, k), k)
    decreases k
  {
    if k == 0 {
      SpanZero(reg);
    } else {
      ReduceSpan(Step(reg, k - 1), k - 1);
      ReduceSpanStep(reg, k, k - 1, Step(reg, k - 1), Reduce(Step(reg, k - 1), k - 1));
    }
  }

  // ---------------------------------------------------------------------------
  // The check bits of a 21-bit data word

  lemma {:induction false} ShiftedDataBelow(data: bv32)
    ensures data < 0x20_0000 ==> data << 10 < 0x8000_0000
  {
  }

  lemma {:induction false} CheckBitsJoin(x: bv32, q: bv32, w: bv32)
    ensures x & 0x3FF == 0 && q & 0x3FF == q && w == x | (q & 0x3FF) ==> w == x ^ q
  {
  }

  lemma {:induction false} ShiftedLowClear(data: bv32)
    ensures (data << 10) & 0x3FF == 0
  {
  }

  /** Filling the low ten bits of `x` with a remainder that fits them is adding the remainder. */
  lemma {:induction false} JoinSpan(x: bv32, q: bv32, w: bv32, k: nat)
    requires q == Reduce(x, k)
    requires x & 0x3FF == 0
    requires q & 0x3FF == q
    requires w == x | (q & 0x3FF)
    ensures InSpan(w, k)
  {
    ReduceSpan(x, k);
    CheckBitsJoin(x, q, w);
    SpanSame(x ^ q, w, k);
  }

  /** The full division of `data << 10` leaves a remainder below `2^10`. */
  lemma {:induction false} DataRemainderFits(data: bv32, k: nat)
    requires k == 21
    requires data < 0x20_0000
    ensures Reduce(data << 10, k) & 0x3FF == Reduce(data << 10, k)
  {
    ShiftedDataBelow(data);
    LowMaskThirtyOne(data << 10, k + 10);
    ReduceFits(data << 10, k);
  }

  lemma {:induction false} ParityCodewordAt(data: bv32, k: nat, x: bv32, q: bv32, w: bv32)
    requires k == 21
    requires data < 0x20_0000
    requires x == data << 10 && q == Reduce(x, k) && w == x | (q & 0x3FF)
    ensures InSpan(w, k)
  {
    DataRemainderFits(data, k);
    ShiftedLowClear(data);
    JoinSpan(x, q, w, k);
  }

  /** Appending the computed check bits to a 21-bit data word gives a BCH(31,21) codeword. */
  lemma {:induction false} ParityMakesCodeword(data: bv32)
    requires data < 0x20_0000
    ensures IsCodeword((data << 10) | Parity(data, 21))
  {
    ParityCodewordAt(data, 21, data << 10, Reduce(data << 10, 21), (data << 10) | Parity(data, 21));
  }

  /** The check bits are ten bits wide. */
  lemma {:induction false} ParityBelow(data: bv32, dataBits: nat)
    ensures Parity(data, dataBits) < 1024
  {
    TenBitsBelow(Reduce(data << 10, dataBits));
  }


  // ---------------------------------------------------------------------------
  // The check bits of the data word for RIC 1234567

  /** `next` is what one pass of the loop body makes of `reg` in round `j`. */
  predicate RoundOf(reg: bv32, j: nat, next: bv32)
    requires j <= 21
  {
    next == if reg & (1 << (j + 10)) != 0 then reg ^ (Generator << j) else reg
  }

  /** One round of the division, as the loop body computes it, followed by `j` more leaves `r`. */
  lemma {:induction false} Round(reg: bv32, j: nat, next: bv32, r: bv32)
    requires j <= 20
    requires RoundOf(reg, j, next)
    requires Reduce(next, j) == r
    ensures Reduce(reg, j + 1) == r
  {
    if reg & (1 << (j + 10)) != 0 {
      StepTaken(reg, j);
    } else {
      StepSkipped(reg, j);
    }
    ReduceSucc(reg, j);
  }

  /** Rounds 5 down to 0 of the division of `0x12D686 << 10`, as the loop body computes them. */
  lemma FirstRounds()
    ensures RoundOf(0x1F80, 5, 0x1F80)
    ensures RoundOf(0x1F80, 4, 0x1F80)
    ensures RoundOf(0x1F80, 3, 0x1F80)
    ensures RoundOf(0x1F80, 2, 0x224)
    ensures RoundOf(0x224, 1, 0x224)
    ensures RoundOf(0x224, 0, 0x224)
  {
  }

  lemma {:induction false} FirstRemainder()
    ensures Reduce(0x1F80, 6) == 0x224
  {
    FirstRounds();
    Round(0x224, 0, 0x224, 0x224);
    Round(0x224, 1, 0x224, 0x224);
    Round(0x1F80, 2, 0x224, 0x224);
    Round(0x1F80, 3, 0x1F80, 0x224);
    Round(0x1F80, 4, 0x1F80, 0x224);
    Round(0x1F80, 5, 0x1F80, 0x224);
  }

  /** Rounds 10 down to 6 of the division of `0x12D686 << 10`, as the loop body computes them. */
  lemma SecondRounds()
    ensures RoundOf(0xA1000, 10, 0xA1000)
    ensures RoundOf(0xA1000, 9, 0x4C200)
    ensures RoundOf(0x4C200, 8, 0x3AB00)
    ensures RoundOf(0x3AB00, 7, 0x1F80)
    ensures RoundOf(0x1F80, 6, 0x1F80)
  {
  }

  lemma {:induction false} SecondRemainder()
    ensures Reduce(0xA1000, 11) == 0x224
  {
    FirstRemainder();
    SecondRounds();
    Round(0x1F80, 6, 0x1F80, 0x224);
    Round(0x3AB00, 7, 0x1F80, 0x224);
    Round(0x4C200, 8, 0x3AB00, 0x224);
    Round(0xA1000, 9, 0x4C200, 0x224);
    Round(0xA1000, 10, 0xA1000, 0x224);
  }

  /** Rounds 15 down to 11 of the division of `0x12D686 << 10`, as the loop body computes them. */
  lemma ThirdRounds()
    ensures RoundOf(0x1EB1800, 15, 0x1EB1800)
    ensures RoundOf(0x1EB1800, 14, 0x315800)
    ensures RoundOf(0x315800, 13, 0x315800)
    ensures RoundOf(0x315800, 12, 0x315800)
    ensures RoundOf(0x315800, 11, 0xA1000)
  {
  }

  lemma {:induction false} ThirdRemainder()
    ensures Reduce(0x1EB1800, 16) == 0x224
  {
    SecondRemainder();
    ThirdRounds();
    Round(0x315800, 11, 0xA1000, 0x224);
    Round(0x315800, 12, 0x315800, 0x224);
    Round(0x315800, 13, 0x315800, 0x224);
    Round(0x1EB1800, 14, 0x315800, 0x224);
    Round(0x1EB1800, 15, 0x1EB1800, 0x224);
  }

  /** Rounds 20 down to 16 of the division of `0x12D686 << 10`, as the loop body computes them. */
  lemma FourthRounds(data: bv32)
    requires data == 0x12D686
    ensures RoundOf(data << 10, 20, 0x3DCA1800)
    ensures RoundOf(0x3DCA1800, 19, 0x6821800)
    ensures RoundOf(0x6821800, 18, 0x6821800)
    ensures RoundOf(0x6821800, 17, 0x6821800)
    ensures RoundOf(0x6821800, 16, 0x1EB1800)
  {
  }

  /** The data word `0x12D686` (RIC 1234567) has check bits `0x224`. */
  lemma {:induction false} KnownParity(data: bv32)
    requires data == 0x12D686
    ensures Parity(data, 21) == 0x224
  {
    ThirdRemainder();
    FourthRounds(data);
    Round(0x6821800, 16, 0x1EB1800, 0x224);
    Round(0x6821800, 17, 0x6821800, 0x224);
    Round(0x6821800, 18, 0x6821800, 0x224);
    Round(0x3DCA1800, 19, 0x6821800, 0x224);
    Round(data << 10, 20, 0x3DCA1800, 0x224);
  }
}
