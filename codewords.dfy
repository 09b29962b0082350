/**
 * POCSAG codewords: a 21-bit data word, its ten BCH(31,21) check bits and an even-parity
 * bit, laid out as `((data << 10 | check) << 1) | even`. Address codewords carry the
 * pager's address and function bits with flag 0; message codewords carry a 20-bit
 * payload with flag 1.
 */
module Codewords {
  import opened Bits
  import opened Bch

  /** The idle codeword that fills unused batch slots. */
  const IdleCodeword: bv32 := 0x7A89C197

  /** `_calculate_even_parity`: the bit that makes the number of one bits even. */
  function EvenParity(cw31: bv32): (even: Bit)
    ensures (PopCount(cw31) + (if even == 1 then 1 else 0)) % 2 == 0
  {
    if PopCount(cw31) % 2 == 1 then 1 else 0
  }

  /** The 31-bit word: the data word followed by its ten check bits. */
  function Word31(data: bv32): bv32
  {
    (data << 10) | Parity(data, 21)
  }

  /** The codeword for a 21-bit data word: `(cw31 << 1) | even`. */
  function Codeword(data: bv32): bv32
  {
    (Word31(data) << 1) | EvenParity(Word31(data))
  }

  /** The data word in bits 31..11 of a codeword. */
  function DataOf(cw: bv32): bv32
  {
    cw >> 11
  }

  /**
   * `_generate_address_codeword`'s data word: the 18 address bits of `ric >> 3` in bits 20..3
   * and the two function bits of `ric >> 1` in bits 2..1.
   * Both fields read bits 1..20 of `ric` only, so for any Python int they are the bits of
   * `ric % 2^21`.
   */
  function AddressData(ric: int): (data: bv32)
    ensures data < 0x20_0000
  {
    AddressFields(RicBits(ric))
  }

  /** Bits 20..0 of `ric`, as Python's `>>` and `&` see them on any int. */
  function RicBits(ric: int): (r: bv32)
    ensures r < 0x20_0000
  {
    (ric % 0x20_0000) as bv32
  }

  function AddressFields(r: bv32): (data: bv32)
    ensures data < 0x20_0000
  {
    (((r >> 3) & 0x3FFFF) << 3) | (((r >> 1) & 3) << 1)
  }

  /** `_generate_address_codeword(ric)` */
  function AddressCodeword(ric: int): bv32
  {
    Codeword(AddressData(ric))
  }

  /** A message codeword's data word: `(payload << 1) | 1`. */
  function MessageData(payload: bv32): bv32
  {
    (payload << 1) | 1
  }

  /** The message codeword for one 20-bit group, as `_encode_alphanumeric` and `_encode_numeric` build it. */
  function MessageCodeword(payload: bv32): bv32
  {
    Codeword(MessageData(payload))
  }

  // ---------------------------------------------------------------------------
  // Every codeword

  lemma Word31Below(data: bv32, p: bv32, w: bv32)
    ensures data < 0x20_0000 && p < 1024 && w == (data << 10) | p ==> w < 0x8000_0000
  {
  }

  lemma {:induction false} EvenWeight(w: bv32, e: Bit)
    requires w < 0x8000_0000
    requires e == EvenParity(w)
    ensures PopCount((w << 1) | e) % 2 == 0
  {
    PopCountShiftIn(w, e);
  }

  lemma {:induction false} Word31Fits(data: bv32)
    requires data < 0x20_0000
    ensures Word31(data) < 0x8000_0000
  {
    ParityBelow(data, 21);
    Word31Below(data, Parity(data, 21), Word31(data));
  }

  /** Every codeword has an even number of one bits. */
  lemma {:induction false} CodewordEvenWeight(data: bv32)
    requires data < 0x20_0000
    ensures PopCount(Codeword(data)) % 2 == 0
  {
    Word31Fits(data);
    EvenWeight(Word31(data), EvenParity(Word31(data)));
  }

  lemma {:induction false} CodewordShape(data: bv32, w: bv32, e: Bit)
    requires w == Word31(data) && e == EvenParity(w)
    ensures Codeword(data) == (w << 1) | e
  {
  }

  lemma {:induction false} Word31IsBch(data: bv32)
    requires data < 0x20_0000
    ensures IsCodeword(Word31(data))
  {
    ParityMakesCodeword(data);
  }

  lemma {:induction false} CodewordDropsParity(data: bv32)
    requires data < 0x20_0000
    ensures Codeword(data) >> 1 == Word31(data)
  {
    Word31Fits(data);
    CodewordShape(data, Word31(data), EvenParity(Word31(data)));
    ShiftInCount(Word31(data), EvenParity(Word31(data)));
  }

  /** Dropping the parity bit of a codeword leaves a BCH(31,21) codeword. */
  lemma {:induction false} CodewordIsBch(data: bv32)
    requires data < 0x20_0000
    ensures IsCodeword(Codeword(data) >> 1)
  {
    CodewordDropsParity(data);
    Word31IsBch(data);
  }

  lemma DataBitsBack(data: bv32, p: bv32, w: bv32, e: Bit, cw: bv32)
    ensures data < 0x20_0000 && p < 1024 && w == (data << 10) | p && cw == (w << 1) | e ==> cw >> 11 == data
  {
  }

  /** Bits 31..11 of a codeword give back its data word. */
  lemma {:induction false} CodewordData(data: bv32)
    requires data < 0x20_0000
    ensures DataOf(Codeword(data)) == data
  {
    ParityBelow(data, 21);
    DataBitsBack(data, Parity(data, 21), Word31(data), EvenParity(Word31(data)), Codeword(data));
  }

  lemma {:induction false} BchOf(d: bv32, cw: bv32, w: bv32)
    requires d < 0x20_0000
    requires cw == Codeword(d)
    requires w == cw >> 1
    ensures IsCodeword(w)
  {
    CodewordDropsParity(d);
    Word31IsBch(d);
    assert w == Word31(d);
  }

  // ---------------------------------------------------------------------------
  // Address and message codewords

  lemma FlagDigit(cw: bv32, d: bv32)
    ensures cw >> 11 == d ==> Digit(cw, 11) == d & 1
  {
  }

  lemma AddressFieldOf(cw: bv32, d: bv32)
    ensures cw >> 11 == d ==> cw >> 14 == d >> 3
  {
  }

  lemma FunctionFieldOf(cw: bv32, d: bv32)
    ensures cw >> 11 == d ==> (cw >> 12) & 3 == (d >> 1) & 3
  {
  }

  lemma AddressFieldBits(r: bv32, d: bv32)
    ensures d == AddressFields(r) ==> d & 1 == 0 && d >> 3 == (r >> 3) & 0x3FFFF && (d >> 1) & 3 == (r >> 1) & 3
  {
  }

  /** The codeword `cw` of the address data word `d` of `ric`, each named. */
  predicate AddressParts(r: bv32, d: bv32, cw: bv32)
  {
    r < 0x20_0000 && d == AddressFields(r) && cw == Codeword(d)
  }

  lemma {:induction false} AddressPartsHold(ric: int)
    ensures AddressParts(RicBits(ric), AddressData(ric), AddressCodeword(ric))
  {
  }

  lemma {:induction false} AddressFlagAt(r: bv32, d: bv32, cw: bv32)
    requires AddressParts(r, d, cw)
    ensures Digit(cw, 11) == 0
  {
    CodewordData(d);
    FlagDigit(cw, d);
    AddressFieldBits(r, d);
  }

  /** An address codeword has flag bit 11 clear. */
  lemma {:induction false} AddressFlagClear(ric: int)
    ensures Digit(AddressCodeword(ric), 11) == 0
  {
    AddressPartsHold(ric);
    AddressFlagAt(RicBits(ric), AddressData(ric), AddressCodeword(ric));
  }

  lemma {:induction false} AddressBitsAt(r: bv32, d: bv32, cw: bv32)
    requires AddressParts(r, d, cw)
    ensures cw >> 14 == (r >> 3) & 0x3FFFF
  {
    CodewordData(d);
    AddressFieldOf(cw, d);
    AddressFieldBits(r, d);
  }

  /** Bits 31..14 of an address codeword are the 18 address bits `(ric >> 3) & 0x3FFFF`. */
  lemma {:induction false} AddressCodewordAddress(ric: int)
    ensures AddressCodeword(ric) >> 14 == (RicBits(ric) >> 3) & 0x3FFFF
  {
    AddressPartsHold(ric);
    AddressBitsAt(RicBits(ric), AddressData(ric), AddressCodeword(ric));
  }

  lemma {:induction false} FunctionBitsAt(r: bv32, d: bv32, cw: bv32)
    requires AddressParts(r, d, cw)
    ensures (cw >> 12) & 3 == (r >> 1) & 3
  {
    CodewordData(d);
    FunctionFieldOf(cw, d);
    AddressFieldBits(r, d);
  }

  /** Bits 13..12 of an address codeword are the function bits `(ric >> 1) & 3`. */
  lemma {:induction false} AddressCodewordFunction(ric: int)
    ensures (AddressCodeword(ric) >> 12) & 3 == (RicBits(ric) >> 1) & 3
  {
    AddressPartsHold(ric);
    FunctionBitsAt(RicBits(ric), AddressData(ric), AddressCodeword(ric));
  }

  lemma {:induction false} AddressEvenAt(r: bv32, d: bv32, cw: bv32)
    requires AddressParts(r, d, cw)
    ensures PopCount(cw) % 2 == 0
  {
    CodewordEvenWeight(d);
  }

  /** An address codeword has an even number of one bits. */
  lemma {:induction false} AddressCodewordEven(ric: int)
    ensures PopCount(AddressCodeword(ric)) % 2 == 0
  {
    AddressPartsHold(ric);
    AddressEvenAt(RicBits(ric), AddressData(ric), AddressCodeword(ric));
  }

  lemma {:induction false} AddressBchAt(r: bv32, d: bv32, cw: bv32, w: bv32)
    requires AddressParts(r, d, cw)
    requires w == cw >> 1
    ensures IsCodeword(w)
  {
    BchOf(d, cw, w);
  }

  /** An address codeword without its parity bit is a BCH(31,21) codeword. */
  lemma {:induction false} AddressCodewordBch(ric: int)
    ensures IsCodeword(AddressCodeword(ric) >> 1)
  {
    AddressPartsHold(ric);
    AddressBchAt(RicBits(ric), AddressData(ric), AddressCodeword(ric), AddressCodeword(ric) >> 1);
  }

  lemma MessageDataBits(p: bv32, d: bv32)
    ensures p < 0x10_0000 && d == MessageData(p) ==> d < 0x20_0000 && d & 1 == 1 && d >> 1 == p
  {
  }

  lemma PayloadOfData(cw: bv32, d: bv32)
    ensures cw >> 11 == d ==> cw >> 12 == d >> 1
  {
  }

  /** The codeword `cw` of the message data word `d` of `payload`, each named. */
  predicate MessageParts(payload: bv32, d: bv32, cw: bv32)
  {
    payload < 0x10_0000 && d == MessageData(payload) && cw == Codeword(d)
  }

  lemma {:induction false} MessagePartsHold(payload: bv32)
    requires payload < 0x10_0000
    ensures MessageParts(payload, MessageData(payload), MessageCodeword(payload))
  {
  }

  lemma {:induction false} MessageFlagAt(payload: bv32, d: bv32, cw: bv32)
    requires MessageParts(payload, d, cw)
    ensures Digit(cw, 11) == 1
  {
    MessageDataBits(payload, d);
    CodewordData(d);
    FlagDigit(cw, d);
  }

  /** A message codeword has flag bit 11 set. */
  lemma {:induction false} MessageFlagSet(payload: bv32)
    requires payload < 0x10_0000
    ensures Digit(MessageCodeword(payload), 11) == 1
  {
    MessagePartsHold(payload);
    MessageFlagAt(payload, MessageData(payload), MessageCodeword(payload));
  }

  lemma {:induction false} MessagePayloadAt(payload: bv32, d: bv32, cw: bv32)
    requires MessageParts(payload, d, cw)
    ensures cw >> 12 == payload
  {
    MessageDataBits(payload, d);
    CodewordData(d);
    PayloadOfData(cw, d);
  }

  /** Bits 31..12 of a message codeword are its 20-bit payload. */
  lemma {:induction false} MessagePayload(payload: bv32)
    requires payload < 0x10_0000
    ensures MessageCodeword(payload) >> 12 == payload
  {
    MessagePartsHold(payload);
    MessagePayloadAt(payload, MessageData(payload), MessageCodeword(payload));
  }

  lemma {:induction false} MessageEvenAt(payload: bv32, d: bv32, cw: bv32)
    requires MessageParts(payload, d, cw)
    ensures PopCount(cw) % 2 == 0
  {
    MessageDataBits(payload, d);
    CodewordEvenWeight(d);
  }

  /** A message codeword has an even number of one bits. */
  lemma {:induction false} MessageCodewordEven(payload: bv32)
    requires payload < 0x10_0000
    ensures PopCount(MessageCodeword(payload)) % 2 == 0
  {
    MessagePartsHold(payload);
    MessageEvenAt(payload, MessageData(payload), MessageCodeword(payload));
  }

  lemma {:induction false} MessageBchAt(payload: bv32, d: bv32, cw: bv32, w: bv32)
    requires MessageParts(payload, d, cw)
    requires w == cw >> 1
    ensures IsCodeword(w)
  {
    MessageDataBits(payload, d);
    BchOf(d, cw, w);
  }

  /** A message codeword without its parity bit is a BCH(31,21) codeword. */
  lemma {:induction false} MessageCodewordBch(payload: bv32)
    requires payload < 0x10_0000
    ensures IsCodeword(MessageCodeword(payload) >> 1)
  {
    MessagePartsHold(payload);
    MessageBchAt(payload, MessageData(payload), MessageCodeword(payload), MessageCodeword(payload) >> 1);
  }

  // ---------------------------------------------------------------------------
  // Known codewords

  /** One step of `PopCount` on a concrete word: drop bit 0 (`b`), continue with `next`. */
  predicate PopRoundOf(w: bv32, next: bv32, b: nat)
  {
    w != 0 && next == w >> 1 && b == (if w & 1 == 1 then 1 else 0)
  }

  lemma {:induction false} PopRound(w: bv32, next: bv32, b: nat, c: nat)
    requires PopRoundOf(w, next, b)
    requires PopCount(next) == c
    ensures PopCount(w) == b + c
  {
  }

  lemma {:induction false} CodewordFrom(data: bv32, w: bv32, e: Bit, cw: bv32)
    requires Word31(data) == w
    requires EvenParity(w) == e
    requires cw == (w << 1) | e
    ensures Codeword(data) == cw
  {
  }

  // The weight of `0x4B5A1A24`, built up from its top bit down.

  lemma AddressShifts1()
    ensures PopRoundOf(0x1, 0x0, 1)
    ensures PopRoundOf(0x2, 0x1, 0)
    ensures PopRoundOf(0x4, 0x2, 0)
    ensures PopRoundOf(0x9, 0x4, 1)
    ensures PopRoundOf(0x12, 0x9, 0)
    ensures PopRoundOf(0x25, 0x12, 1)
    ensures PopRoundOf(0x4B, 0x25, 1)
    ensures PopRoundOf(0x96, 0x4B, 0)
  {
  }

  lemma {:induction false} AddressCount1()
    ensures PopCount(0x96) == 4
  {
    AddressShifts1();
    PopRound(0x1, 0x0, 1, 0);
    PopRound(0x2, 0x1, 0, 1);
    PopRound(0x4, 0x2, 0, 1);
    PopRound(0x9, 0x4, 1, 1);
    PopRound(0x12, 0x9, 0, 2);
    PopRound(0x25, 0x12, 1, 2);
    PopRound(0x4B, 0x25, 1, 3);
    PopRound(0x96, 0x4B, 0, 4);
  }

  lemma AddressShifts2()
    ensures PopRoundOf(0x12D, 0x96, 1)
    ensures PopRoundOf(0x25A, 0x12D, 0)
    ensures PopRoundOf(0x4B5, 0x25A, 1)
    ensures PopRoundOf(0x96B, 0x4B5, 1)
    ensures PopRoundOf(0x12D6, 0x96B, 0)
    ensures PopRoundOf(0x25AD, 0x12D6, 1)
    ensures PopRoundOf(0x4B5A, 0x25AD, 0)
    ensures PopRoundOf(0x96B4, 0x4B5A, 0)
  {
  }

  lemma {:induction false} AddressCount2()
    ensures PopCount(0x96B4) == 8
  {
    AddressCount1();
    AddressShifts2();
    PopRound(0x12D, 0x96, 1, 4);
    PopRound(0x25A, 0x12D, 0, 5);
    PopRound(0x4B5, 0x25A, 1, 5);
    PopRound(0x96B, 0x4B5, 1, 6);
    PopRound(0x12D6, 0x96B, 0, 7);
    PopRound(0x25AD, 0x12D6, 1, 7);
    PopRound(0x4B5A, 0x25AD, 0, 8);
    PopRound(0x96B4, 0x4B5A, 0, 8);
  }

  lemma AddressShifts3()
    ensures PopRoundOf(0x12D68, 0x96B4, 0)
    ensures PopRoundOf(0x25AD0, 0x12D68, 0)
    ensures PopRoundOf(0x4B5A1, 0x25AD0, 1)
    ensures PopRoundOf(0x96B43, 0x4B5A1, 1)
    ensures PopRoundOf(0x12D686, 0x96B43, 0)
    ensures PopRoundOf(0x25AD0D, 0x12D686, 1)
    ensures PopRoundOf(0x4B5A1A, 0x25AD0D, 0)
    ensures PopRoundOf(0x96B434, 0x4B5A1A, 0)
  {
  }

  lemma {:induction false} AddressCount3()
    ensures PopCount(0x96B434) == 11
  {
    AddressCount2();
    AddressShifts3();
    PopRound(0x12D68, 0x96B4, 0, 8);
    PopRound(0x25AD0, 0x12D68, 0, 8);
    PopRound(0x4B5A1, 0x25AD0, 1, 8);
    PopRound(0x96B43, 0x4B5A1, 1, 9);
    PopRound(0x12D686, 0x96B43, 0, 10);
    PopRound(0x25AD0D, 0x12D686, 1, 10);
    PopRound(0x4B5A1A, 0x25AD0D, 0, 11);
    PopRound(0x96B434, 0x4B5A1A, 0, 11);
  }

  lemma AddressShifts4()
    ensures PopRoundOf(0x12D6868, 0x96B434, 0)
    ensures PopRoundOf(0x25AD0D1, 0x12D6868, 1)
    ensures PopRoundOf(0x4B5A1A2, 0x25AD0D1, 0)
    ensures PopRoundOf(0x96B4344, 0x4B5A1A2, 0)
    ensures PopRoundOf(0x12D68689, 0x96B4344, 1)
    ensures PopRoundOf(0x25AD0D12, 0x12D68689, 0)
    ensures PopRoundOf(0x4B5A1A24, 0x25AD0D12, 0)
  {
  }

  lemma {:induction false} AddressCount4()
    ensures PopCount(0x4B5A1A24) == 13
  {
    AddressCount3();
    AddressShifts4();
    PopRound(0x12D6868, 0x96B434, 0, 11);
    PopRound(0x25AD0D1, 0x12D6868, 1, 11);
    PopRound(0x4B5A1A2, 0x25AD0D1, 0, 12);
    PopRound(0x96B4344, 0x4B5A1A2, 0, 12);
    PopRound(0x12D68689, 0x96B4344, 1, 12);
    PopRound(0x25AD0D12, 0x12D68689, 0, 13);
    PopRound(0x4B5A1A24, 0x25AD0D12, 0, 13);
  }

  lemma {:induction false} KnownWord31(data: bv32)
    requires data == 0x12D686
    ensures Word31(data) == 0x4B5A1A24
  {
    KnownParity(data);
  }

  lemma {:induction false} KnownAddressAt(r: bv32, d: bv32, cw: bv32)
    requires r == 0x12D687
    requires AddressParts(r, d, cw)
    ensures cw == 0x96B43449
  {
    assert d == 0x12D686;
    KnownWord31(d);
    AddressCount4();
    CodewordFrom(d, 0x4B5A1A24, 1, 0x96B43449);
  }

  lemma KnownRic(ric: int)
    requires ric == 1234567
    ensures RicBits(ric) == 0x12D687
  {
    assert ric % 0x20_0000 == 1234567;
  }

  /** RIC 1234567 gives the address codeword `0x96B43449` (data word `0x12D686`, check bits `0x224`). */
  lemma {:induction false} KnownAddress(ric: int)
    requires ric == 1234567
    ensures AddressCodeword(ric) == 0x96B43449
  {
    AddressPartsHold(ric);
    KnownRic(ric);
    KnownAddressAt(RicBits(ric), AddressData(ric), AddressCodeword(ric));
  }

  /** Rounds 5 down to 0 of the division of `0xF5138 << 10`, as the loop body computes them. */
  lemma IdleRounds1()
    ensures RoundOf(0x92C0, 5, 0x7FE0)
    ensures RoundOf(0x7FE0, 4, 0x970)
    ensures RoundOf(0x970, 3, 0x970)
    ensures RoundOf(0x970, 2, 0x970)
    ensures RoundOf(0x970, 1, 0x7A2)
    ensures RoundOf(0x7A2, 0, 0xCB)
  {
  }

  lemma {:induction false} IdleRemainder1()
    ensures Reduce(0x92C0, 6) == 0xCB
  {
    IdleRounds1();
    Round(0x7A2, 0, 0xCB, 0xCB);
    Round(0x970, 1, 0x7A2, 0xCB);
    Round(0x970, 2, 0x970, 0xCB);
    Round(0x970, 3, 0x970, 0xCB);
    Round(0x7FE0, 4, 0x970, 0xCB);
    Round(0x92C0, 5, 0x7FE0, 0xCB);
  }

  /** Rounds 10 down to 6 of the division of `0xF5138 << 10`, as the loop body computes them. */
  lemma IdleRounds2()
    ensures RoundOf(0x1F5800, 10, 0x2FC00)
    ensures RoundOf(0x2FC00, 9, 0x2FC00)
    ensures RoundOf(0x2FC00, 8, 0x2FC00)
    ensures RoundOf(0x2FC00, 7, 0x14880)
    ensures RoundOf(0x14880, 6, 0x92C0)
  {
  }

  lemma {:induction false} IdleRemainder2()
    ensures Reduce(0x1F5800, 11) == 0xCB
  {
    IdleRemainder1();
    IdleRounds2();
    Round(0x14880, 6, 0x92C0, 0xCB);
    Round(0x2FC00, 7, 0x14880, 0xCB);
    Round(0x2FC00, 8, 0x2FC00, 0xCB);
    Round(0x2FC00, 9, 0x2FC00, 0xCB);
    Round(0x1F5800, 10, 0x2FC00, 0xCB);
  }

  /** Rounds 15 down to 11 of the division of `0xF5138 << 10`, as the loop body computes them. */
  lemma IdleRounds3()
    ensures RoundOf(0x165E000, 15, 0x165E000)
    ensures RoundOf(0x165E000, 14, 0xBFA000)
    ensures RoundOf(0xBFA000, 13, 0x528000)
    ensures RoundOf(0x528000, 12, 0x241000)
    ensures RoundOf(0x241000, 11, 0x1F5800)
  {
  }

  lemma {:induction false} IdleRemainder3()
    ensures Reduce(0x165E000, 16) == 0xCB
  {
    IdleRemainder2();
    IdleRounds3();
    Round(0x241000, 11, 0x1F5800, 0xCB);
    Round(0x528000, 12, 0x241000, 0xCB);
    Round(0xBFA000, 13, 0x528000, 0xCB);
    Round(0x165E000, 14, 0xBFA000, 0xCB);
    Round(0x165E000, 15, 0x165E000, 0xCB);
  }

  /** Rounds 20 down to 16 of the division of `0xF5138 << 10`, as the loop body computes them. */
  lemma IdleRounds4(data: bv32)
    requires data == 0xF5138
    ensures RoundOf(data << 10, 20, 0x3D44E000)
    ensures RoundOf(0x3D44E000, 19, 0x60CE000)
    ensures RoundOf(0x60CE000, 18, 0x60CE000)
    ensures RoundOf(0x60CE000, 17, 0x60CE000)
    ensures RoundOf(0x60CE000, 16, 0x165E000)
  {
  }

  /** The data word `0xF5138` (RICs 1003832 and 1003833) has check bits `0xCB`. */
  lemma {:induction false} IdleParity(data: bv32)
    requires data == 0xF5138
    ensures Parity(data, 21) == 0xCB
  {
    IdleRemainder3();
    IdleRounds4(data);
    Round(0x60CE000, 16, 0x165E000, 0xCB);
    Round(0x60CE000, 17, 0x60CE000, 0xCB);
    Round(0x60CE000, 18, 0x60CE000, 0xCB);
    Round(0x3D44E000, 19, 0x60CE000, 0xCB);
    Round(data << 10, 20, 0x3D44E000, 0xCB);
  }

  // The weight of `0x3D44E0CB`, built up from its top bit down.

  lemma IdleShifts1()
    ensures PopRoundOf(0x1, 0x0, 1)
    ensures PopRoundOf(0x3, 0x1, 1)
    ensures PopRoundOf(0x7, 0x3, 1)
    ensures PopRoundOf(0xF, 0x7, 1)
    ensures PopRoundOf(0x1E, 0xF, 0)
    ensures PopRoundOf(0x3D, 0x1E, 1)
    ensures PopRoundOf(0x7A, 0x3D, 0)
    ensures PopRoundOf(0xF5, 0x7A, 1)
  {
  }

  lemma {:induction false} IdleCount1()
    ensures PopCount(0xF5) == 6
  {
    IdleShifts1();
    PopRound(0x1, 0x0, 1, 0);
    PopRound(0x3, 0x1, 1, 1);
    PopRound(0x7, 0x3, 1, 2);
    PopRound(0xF, 0x7, 1, 3);
    PopRound(0x1E, 0xF, 0, 4);
    PopRound(0x3D, 0x1E, 1, 4);
    PopRound(0x7A, 0x3D, 0, 5);
    PopRound(0xF5, 0x7A, 1, 5);
  }

  lemma IdleShifts2()
    ensures PopRoundOf(0x1EA, 0xF5, 0)
    ensures PopRoundOf(0x3D4, 0x1EA, 0)
    ensures PopRoundOf(0x7A8, 0x3D4, 0)
    ensures PopRoundOf(0xF51, 0x7A8, 1)
    ensures PopRoundOf(0x1EA2, 0xF51, 0)
    ensures PopRoundOf(0x3D44, 0x1EA2, 0)
    ensures PopRoundOf(0x7A89, 0x3D44, 1)
    ensures PopRoundOf(0xF513, 0x7A89, 1)
  {
  }

  lemma {:induction false} IdleCount2()
    ensures PopCount(0xF513) == 9
  {
    IdleCount1();
    IdleShifts2();
    PopRound(0x1EA, 0xF5, 0, 6);
    PopRound(0x3D4, 0x1EA, 0, 6);
    PopRound(0x7A8, 0x3D4, 0, 6);
    PopRound(0xF51, 0x7A8, 1, 6);
    PopRound(0x1EA2, 0xF51, 0, 7);
    PopRound(0x3D44, 0x1EA2, 0, 7);
    PopRound(0x7A89, 0x3D44, 1, 7);
    PopRound(0xF513, 0x7A89, 1, 8);
  }

  lemma IdleShifts3()
    ensures PopRoundOf(0x1EA27, 0xF513, 1)
    ensures PopRoundOf(0x3D44E, 0x1EA27, 0)
    ensures PopRoundOf(0x7A89C, 0x3D44E, 0)
    ensures PopRoundOf(0xF5138, 0x7A89C, 0)
    ensures PopRoundOf(0x1EA270, 0xF5138, 0)
    ensures PopRoundOf(0x3D44E0, 0x1EA270, 0)
    ensures PopRoundOf(0x7A89C1, 0x3D44E0, 1)
    ensures PopRoundOf(0xF51383, 0x7A89C1, 1)
  {
  }

  lemma {:induction false} IdleCount3()
    ensures PopCount(0xF51383) == 12
  {
    IdleCount2();
    IdleShifts3();
    PopRound(0x1EA27, 0xF513, 1, 9);
    PopRound(0x3D44E, 0x1EA27, 0, 10);
    PopRound(0x7A89C, 0x3D44E, 0, 10);
    PopRound(0xF5138, 0x7A89C, 0, 10);
    PopRound(0x1EA270, 0xF5138, 0, 10);
    PopRound(0x3D44E0, 0x1EA270, 0, 10);
    PopRound(0x7A89C1, 0x3D44E0, 1, 10);
    PopRound(0xF51383, 0x7A89C1, 1, 11);
  }

  lemma IdleShifts4()
    ensures PopRoundOf(0x1EA2706, 0xF51383, 0)
    ensures PopRoundOf(0x3D44E0C, 0x1EA2706, 0)
    ensures PopRoundOf(0x7A89C19, 0x3D44E0C, 1)
    ensures PopRoundOf(0xF513832, 0x7A89C19, 0)
    ensures PopRoundOf(0x1EA27065, 0xF513832, 1)
    ensures PopRoundOf(0x3D44E0CB, 0x1EA27065, 1)
  {
  }

  lemma {:induction false} IdleCount4()
    ensures PopCount(0x3D44E0CB) == 15
  {
    IdleCount3();
    IdleShifts4();
    PopRound(0x1EA2706, 0xF51383, 0, 12);
    PopRound(0x3D44E0C, 0x1EA2706, 0, 12);
    PopRound(0x7A89C19, 0x3D44E0C, 1, 12);
    PopRound(0xF513832, 0x7A89C19, 0, 13);
    PopRound(0x1EA27065, 0xF513832, 1, 13);
    PopRound(0x3D44E0CB, 0x1EA27065, 1, 14);
  }

  lemma {:induction false} IdleWord31(data: bv32)
    requires data == 0xF5138
    ensures Word31(data) == 0x3D44E0CB
  {
    IdleParity(data);
  }

  lemma {:induction false} IdleAddressAt(r: bv32, d: bv32, cw: bv32)
    requires r == 0xF5138 || r == 0xF5139
    requires AddressParts(r, d, cw)
    ensures cw == IdleCodeword
  {
    assert d == 0xF5138;
    IdleWord31(d);
    IdleCount4();
    CodewordFrom(d, 0x3D44E0CB, 1, 0x7A89C197);
  }

  lemma IdleRic(ric: int)
    requires ric == 1003832 || ric == 1003833
    ensures RicBits(ric) == 0xF5138 || RicBits(ric) == 0xF5139
  {
    if ric == 1003832 {
      assert ric % 0x20_0000 == 1003832;
    } else {
      assert ric % 0x20_0000 == 1003833;
    }
  }

  /**
   * RICs 1003832 and 1003833 (data word `0xF5138`, check bits `0xCB`) give an address codeword
   * equal to the idle codeword, so a batch for them looks like an idle batch.
   */
  lemma {:induction false} IdleAddress(ric: int)
    requires ric == 1003832 || ric == 1003833
    ensures AddressCodeword(ric) == IdleCodeword
  {
    AddressPartsHold(ric);
    IdleRic(ric);
    IdleAddressAt(RicBits(ric), AddressData(ric), AddressCodeword(ric));
  }
}
