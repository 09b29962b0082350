/**
 * Message packing: the characters of a message become a most-significant-first bit
 * stream (7 bits per alphanumeric character, 4 per numeric symbol), the stream is padded
 * to a multiple of 20 bits with the bits of the space symbol, and every 20-bit group
 * becomes one message codeword.
 */
module Packing {
  import opened Wrappers
  import opened Bits
  import opened Bch
  import opened Codewords

  /** `ord(ch) & 0x7F`: the 7-bit code of an alphanumeric character. */
  function CharValue(ch: char): (v: bv32)
    ensures v < 0x80
  {
    ((ch as int) % 0x80) as bv32
  }

  /** The 7-bit codes of a message's characters, in order. */
  function CharValues(message: string): (vals: seq<bv32>)
    ensures |vals| == |message|
  {
    seq(|message|, i requires 0 <= i < |message| => CharValue(message[i]))
  }

  /** The `bcd_map` table of `_encode_numeric`. */
  const BcdMap: map<char, bv32> := map[
    '0' := 0x0, '1' := 0x1, '2' := 0x2, '3' := 0x3, '4' := 0x4,
    '5' := 0x5, '6' := 0x6, '7' := 0x7, '8' := 0x8, '9' := 0x9,
    'U' := 0xA, '-' := 0xC, '[' := 0xD, ']' := 0xE, ' ' := 0xB]

  /** The numeric padding symbol: the code of a space. */
  const NumericSpace: bv32 := 0xB

  /** The bits of `NumericSpace`, most significant first. */
  const NumericPad: seq<Bit> := [1, 0, 1, 1]

  /** The alphanumeric padding symbol: ASCII space. */
  const AlphaSpace: bv32 := 0x20

  /** The bits of `AlphaSpace`, most significant first. */
  const AlphaPad: seq<Bit> := [0, 1, 0, 0, 0, 0, 0]

  /** The symbols of `vals`, each written out as `width` bits, most significant first. */
  function SymbolBits(vals: seq<bv32>, width: nat): seq<Bit>
    requires width <= 32
  {
    if |vals| == 0 then [] else SymbolBits(vals[..|vals| - 1], width) + MsbFirst(vals[|vals| - 1], width)
  }

  /** The first `n` bits of `pattern` repeated without end. */
  function Cycle(pattern: seq<Bit>, n: nat): (bits: seq<Bit>)
    requires |pattern| > 0
    ensures |bits| == n
  {
    if n == 0 then [] else Cycle(pattern, n - 1) + [pattern[(n - 1) % |pattern|]]
  }

  /** How many bits bring a stream of `len` bits up to the next multiple of 20. */
  function PadCount(len: nat): nat
  {
    (20 - len % 20) % 20
  }

  /** The padding loop's result: `bits` followed by the first bits of the repeated pad symbol `pattern`. */
  function Padded(bits: seq<Bit>, pattern: seq<Bit>): (padded: seq<Bit>)
    requires |pattern| > 0
    ensures |padded| % 20 == 0
  {
    PadCountFills(|bits|);
    bits + Cycle(pattern, PadCount(|bits|))
  }

  lemma PadCountFills(len: nat)
    ensures (len + PadCount(len)) % 20 == 0
  {
  }

  /** The 20-bit groups of a padded stream as message codewords, in order. */
  function GroupCodewords(bits: seq<Bit>): (codewords: seq<bv32>)
    requires |bits| % 20 == 0
    ensures |codewords| == |bits| / 20
  {
    if |bits| == 0 then []
    else GroupCodewords(bits[..|bits| - 20]) + [MessageCodeword(FromMsbFirst(bits[|bits| - 20..]))]
  }

  /** `_encode_alphanumeric(message)` as a value. */
  function AlphanumericCodewords(message: string): seq<bv32>
  {
    GroupCodewords(Padded(SymbolBits(CharValues(message), 7), AlphaPad))
  }

  /** The numeric codes of a message, or the `KeyError` `bcd_map[ch]` raises at the first unknown character. */
  function NumericValues(message: string): (r: Result<seq<bv32>>)
    ensures r.Ok? ==> |r.value| == |message|
  {
    if |message| == 0 then Ok([])
    else match NumericValues(message[..|message| - 1])
      case Err(e) => Err(e)
      case Ok(vals) =>
        var ch := message[|message| - 1];
        if ch in BcdMap then Ok(vals + [BcdMap[ch]]) else Err(KeyError([ch]))
  }

  /** `_encode_numeric(message)` as a value. */
  function NumericCodewords(message: string): Result<seq<bv32>>
  {
    match NumericValues(message)
      case Err(e) => Err(e)
      case Ok(vals) => Ok(GroupCodewords(Padded(SymbolBits(vals, 4), NumericPad)))
  }

  // ---------------------------------------------------------------------------
  // The encoding loops

  /** The inner loop of the packers: append the `width` low bits of `val`, highest bit first. */
  method AppendSymbol(bits: seq<Bit>, val: bv32, width: nat) returns (out: seq<Bit>)
    requires width <= 32
    ensures out == bits + MsbFirst(val, width)
  {
    out := bits;
    var shift: int := width - 1;
    while shift >= 0
      invariant -1 <= shift < width
      invariant out == bits + MsbFirst(val, width)[..width - 1 - shift]
    {
      MsbFirstIndex(val, width, width - 1 - shift);
      assert MsbFirst(val, width)[..width - shift] == MsbFirst(val, width)[..width - 1 - shift] + [Digit(val, shift)];
      out := out + [Digit(val, shift)];
      shift := shift - 1;
    }
    assert MsbFirst(val, width)[..width] == MsbFirst(val, width);
  }

  /**
   * The padding loop: `while len(bits) % 20 != 0`, append the bits of `pad` most significant
   * first, stopping as soon as the length reaches a multiple of 20.
   */
  method PadToGroup(bits: seq<Bit>, pad: bv32, width: nat, ghost pattern: seq<Bit>) returns (out: seq<Bit>)
    requires width == 4 || width == 7
    requires pattern == MsbFirst(pad, width)
    ensures out == Padded(bits, pattern)
    ensures |out| % 20 == 0
  {
    ghost var target := |bits| + PadCount(|bits|);
    out := bits;
    while |out| % 20 != 0
      invariant |out| <= target
      invariant PadPrefix(bits, out, pattern)
      invariant |out| % 20 != 0 ==> (|out| - |bits|) % width == 0
      decreases target - |out|
    {
      ghost var base := |out| - |bits|;
      var shift: int := width - 1;
      while shift >= 0
        invariant -1 <= shift < width
        invariant |out| - |bits| == base + (width - 1 - shift)
        invariant PadPrefix(bits, out, pattern)
        invariant |out| % 20 != 0
        invariant |out| <= target
        decreases shift
      {
        PadStep(bits, out, pad, width, pattern, base, shift);
        out := out + [Digit(pad, shift)];
        if |out| % 20 == 0 {
          break;
        }
        shift := shift - 1;
      }
      if |out| % 20 != 0 {
        ModWhole(base, width, |out| - |bits|);
      }
    }
    AtTarget(|bits|, |out|);
  }
  /** The payload of one 20-bit group: its bits read as a number, first bit highest. */
  method ReadGroup(block: seq<Bit>) returns (payload: bv32)
    requires |block| == 20
    ensures payload == FromMsbFirst(block)
  {
    payload := 0;
    var j := 0;
    while j < |block|
      invariant j <= |block|
      invariant payload == FromMsbFirst(block[..j])
    {
      assert block[..j + 1][..j] == block[..j];
      payload := (payload << 1) | block[j];
      j := j + 1;
    }
    assert block[..j] == block;
  }

  /** The loop body that turns one 20-bit payload into a message codeword. */
  method GroupCodeword(payload: bv32) returns (cw: bv32)
    requires payload < 0x10_0000
    ensures cw == MessageCodeword(payload)
  {
    var dataVal := (payload << 1) | 1;
    DataValBelow(payload, dataVal);
    var parity := CalculateBchParity(dataVal, 21);
    var cw31 := (dataVal << 10) | parity;
    var even := EvenParity(cw31);
    cw := (cw31 << 1) | even;
    MessageCodewordFrom(payload, dataVal, parity, cw31, even, cw);
  }

  /** `for i in range(0, len(bits), 20)`: one message codeword per 20-bit group. */
  method PackGroups(bits: seq<Bit>) returns (codewords: seq<bv32>)
    requires |bits| % 20 == 0
    ensures codewords == GroupCodewords(bits)
  {
    codewords := [];
    var i := 0;
    while i < |bits|
      invariant i <= |bits|
      invariant i % 20 == 0
      invariant codewords == GroupCodewords(bits[..i])
    {
      NextGroupFits(i, |bits|);
      var block := bits[i..i + 20];
      var payload := ReadGroup(block);
      PayloadBelow(block);
      var cw := GroupCodeword(payload);
      GroupSnoc(bits, i, codewords, cw);
      codewords := codewords + [cw];
      i := i + 20;
    }
    assert bits[..i] == bits;
  }

  /** `_encode_alphanumeric` */
  method EncodeAlphanumeric(message: string) returns (codewords: seq<bv32>)
    ensures codewords == AlphanumericCodewords(message)
  {
    ghost var vals := CharValues(message);
    var bits: seq<Bit> := [];
    var i := 0;
    while i < |message|
      invariant i <= |message|
      invariant bits == SymbolBits(vals[..i], 7)
    {
      var val := CharValue(message[i]);
      assert vals[..i + 1][..i] == vals[..i];
      bits := AppendSymbol(bits, val, 7);
      i := i + 1;
    }
    assert vals[..i] == vals;
    AlphaPadBits(AlphaSpace, 7);
    bits := PadToGroup(bits, AlphaSpace, 7, AlphaPad);
    codewords := PackGroups(bits);
  }

  /** `_encode_numeric`, with the `KeyError` of a character `bcd_map` does not hold. */
  method EncodeNumeric(message: string) returns (r: Result<seq<bv32>>)
    ensures r == NumericCodewords(message)
  {
    ghost var vals: seq<bv32> := [];
    var bits: seq<Bit> := [];
    var i := 0;
    while i < |message|
      invariant i <= |message|
      invariant NumericValues(message[..i]) == Ok(vals)
      invariant bits == SymbolBits(vals, 4)
    {
      var ch := message[i];
      assert message[..i + 1][..i] == message[..i];
      if ch !in BcdMap {
        NumericErrorStays(message, i + 1);
        return Err(KeyError([ch]));
      }
      var val := BcdMap[ch];
      assert (vals + [val])[..|vals|] == vals;
      bits := AppendSymbol(bits, val, 4);
      vals := vals + [val];
      i := i + 1;
    }
    assert message[..i] == message;
    NumericPadBits(NumericSpace, 4);
    bits := PadToGroup(bits, NumericSpace, 4, NumericPad);
    var codewords := PackGroups(bits);
    r := Ok(codewords);
  }

  // ---------------------------------------------------------------------------
  // Helper facts for the loops

  /** `out` is `bits` followed by the first bits of the repeated `pattern`. */
  predicate PadPrefix(bits: seq<Bit>, out: seq<Bit>, pattern: seq<Bit>)
    requires |pattern| > 0
  {
    |bits| <= |out| && out == bits + Cycle(pattern, |out| - |bits|)
  }

  /** One bit of the padding loop extends the repeated pattern by the next bit. */
  lemma {:induction false} PadStep(bits: seq<Bit>, out: seq<Bit>, pad: bv32, width: nat, pattern: seq<Bit>, base: nat, shift: int)
    requires width == 4 || width == 7
    requires pattern == MsbFirst(pad, width)
    requires 0 <= shift < width
    requires base % width == 0
    requires |out| - |bits| == base + (width - 1 - shift)
    requires PadPrefix(bits, out, pattern)
    requires |out| % 20 != 0
    requires |out| <= |bits| + PadCount(|bits|)
    ensures PadPrefix(bits, out + [Digit(pad, shift)], pattern)
    ensures |out| + 1 <= |bits| + PadCount(|bits|)
  {
    BelowTarget(|bits|, |out|);
    ModStep(base, width - 1 - shift, width);
    MsbFirstIndex(pad, width, width - 1 - shift);
  }

  lemma {:induction false} AlphaPadBits(pad: bv32, width: nat)
    requires pad == AlphaSpace && width == 7
    ensures MsbFirst(pad, width) == AlphaPad
  {
    MsbFirstIndex(pad, width, 0);
    MsbFirstIndex(pad, width, 1);
    MsbFirstIndex(pad, width, 2);
    MsbFirstIndex(pad, width, 3);
    MsbFirstIndex(pad, width, 4);
    MsbFirstIndex(pad, width, 5);
    MsbFirstIndex(pad, width, 6);
  }

  lemma {:induction false} NumericPadBits(pad: bv32, width: nat)
    requires pad == NumericSpace && width == 4
    ensures MsbFirst(pad, width) == NumericPad
  {
    MsbFirstIndex(pad, width, 0);
    MsbFirstIndex(pad, width, 1);
    MsbFirstIndex(pad, width, 2);
    MsbFirstIndex(pad, width, 3);
  }

  lemma BelowTarget(len: nat, n: nat)
    requires len <= n <= len + PadCount(len)
    requires n % 20 != 0
    ensures n < len + PadCount(len)
  {
  }

  lemma AtTarget(len: nat, n: nat)
    requires len <= n <= len + PadCount(len)
    requires n % 20 == 0
    ensures n == len + PadCount(len)
  {
  }

  lemma ModStep(base: nat, k: nat, width: nat)
    requires width == 4 || width == 7
    requires base % width == 0 && k < width
    ensures (base + k) % width == k
  {
  }

  lemma ModWhole(base: nat, width: nat, n: nat)
    requires width == 4 || width == 7
    requires base % width == 0
    requires n == base + width
    ensures n % width == 0
  {
  }

  lemma DataValBelow(payload: bv32, d: bv32)
    requires payload < 0x10_0000
    requires d == (payload << 1) | 1
    ensures d < 0x40_0000
  {
  }

  lemma {:induction false} MessageCodewordFrom(payload: bv32, d: bv32, p: bv32, cw31: bv32, e: Bit, cw: bv32)
    requires d == (payload << 1) | 1
    requires p == Parity(d, 21)
    requires cw31 == (d << 10) | p
    requires e == EvenParity(cw31)
    requires cw == (cw31 << 1) | e
    ensures cw == MessageCodeword(payload)
  {
    assert cw31 == Word31(d);
  }

  lemma {:induction false} LowMaskTwenty(n: nat)
    requires n == 20
    ensures LowMask(n) == 0xF_FFFF
  {
    LowMaskIsShift(n);
  }

  /** A 20-bit group reads as a payload below `2^20`. */
  lemma {:induction false} PayloadBelow(block: seq<Bit>)
    requires |block| == 20
    ensures FromMsbFirst(block) < 0x10_0000
  {
    FromMsbFirstFits(block);
    LowMaskTwenty(|block|);
    TwentyBitsBelow(FromMsbFirst(block));
  }

  lemma TwentyBitsBelow(x: bv32)
    ensures x & 0xF_FFFF == x ==> x < 0x10_0000
  {
  }

  lemma NextGroupFits(i: nat, n: nat)
    requires i % 20 == 0 && n % 20 == 0 && i < n
    ensures i + 20 <= n
  {
  }

  lemma {:induction false} GroupSnoc(bits: seq<Bit>, i: nat, cws: seq<bv32>, cw: bv32)
    requires i % 20 == 0 && i + 20 <= |bits|
    requires cws == GroupCodewords(bits[..i])
    requires cw == MessageCodeword(FromMsbFirst(bits[i..i + 20]))
    ensures cws + [cw] == GroupCodewords(bits[..i + 20])
  {
    var pre := bits[..i + 20];
    assert pre[..|pre| - 20] == bits[..i];
    assert pre[|pre| - 20..] == bits[i..i + 20];
  }

  /** Once a prefix of the message holds an unknown character, so does every longer prefix. */
  lemma {:induction false} NumericErrorStays(message: string, n: nat)
    requires 0 < n <= |message|
    requires message[n - 1] !in BcdMap
    requires NumericValues(message[..n - 1]).Ok?
    ensures NumericValues(message) == Err(KeyError([message[n - 1]]))
    decreases |message|
  {
    if n == |message| {
      assert message[..|message| - 1] == message[..n - 1];
    } else {
      var init := message[..|message| - 1];
      assert init[..n - 1] == message[..n - 1];
      NumericErrorStays(init, n);
    }
  }

  // ---------------------------------------------------------------------------
  // Properties of the packing

  /** Writing out two runs of symbols writes out the first run, then the second. */
  lemma {:induction false} SymbolBitsAppend(a: seq<bv32>, b: seq<bv32>, width: nat)
    requires width <= 32
    ensures SymbolBits(a + b, width) == SymbolBits(a, width) + SymbolBits(b, width)
    decreases |b|
  {
    if |b| == 0 {
      assert a + b == a;
    } else {
      var b' := b[..|b| - 1];
      SymbolBitsAppend(a, b', width);
      SymbolBitsAppendStep(a, b, b', a + b, width);
    }
  }

  lemma SymbolBitsAppendStep(a: seq<bv32>, b: seq<bv32>, b': seq<bv32>, ab: seq<bv32>, width: nat)
    requires width <= 32 && 0 < |b|
    requires b' == b[..|b| - 1] && ab == a + b
    requires SymbolBits(a + b', width) == SymbolBits(a, width) + SymbolBits(b', width)
    ensures SymbolBits(ab, width) == SymbolBits(a, width) + SymbolBits(b, width)
  {
    var last := b[|b| - 1];
    assert ab[..|ab| - 1] == a + b';
    SymbolBitsSnoc(ab, a + b', last, width);
    SymbolBitsSnoc(b, b', last, width);
    ConcatAssoc(SymbolBits(a, width), SymbolBits(b', width), MsbFirst(last, width));
  }

  lemma ConcatAssoc(x: seq<Bit>, y: seq<Bit>, z: seq<Bit>)
    ensures (x + y) + z == x + (y + z)
  {
  }

  lemma SymbolBitsSnoc(vals: seq<bv32>, init: seq<bv32>, last: bv32, width: nat)
    requires width <= 32 && 0 < |vals|
    requires init == vals[..|vals| - 1] && last == vals[|vals| - 1]
    ensures SymbolBits(vals, width) == SymbolBits(init, width) + MsbFirst(last, width)
  {
  }

  /** Each symbol takes exactly `width` bits. */
  lemma {:induction false} SymbolBitsLength(vals: seq<bv32>, width: nat)
    requires width <= 32
    ensures |SymbolBits(vals, width)| == width * |vals|
    decreases |vals|
  {
    if |vals| > 0 {
      SymbolBitsLength(vals[..|vals| - 1], width);
      assert width * |vals| == width * (|vals| - 1) + width;
    }
  }

  /** Bits `width * i` up to `width * i + width` are symbol `i`, most significant first. */
  lemma {:induction false} SymbolAt(vals: seq<bv32>, width: nat, i: nat)
    requires width <= 32 && i < |vals|
    ensures width * i + width <= |SymbolBits(vals, width)|
    ensures SymbolBits(vals, width)[width * i..width * i + width] == MsbFirst(vals[i], width)
  {
    var pre, rest := vals[..i], vals[i + 1..];
    assert vals == pre + [vals[i]] + rest;
    SymbolBitsAppend(pre + [vals[i]], rest, width);
    SymbolBitsAppend(pre, [vals[i]], width);
    SymbolBitsLength(pre, width);
    assert SymbolBits([vals[i]], width) == MsbFirst(vals[i], width) by {
      assert [vals[i]][..0] == [];
    }
  }
  /** Bit `j` of symbol `i` sits at `width * i + j` of the stream, most significant first. */
  lemma SymbolBitAt(vals: seq<bv32>, width: nat, i: nat, j: nat)
    requires width <= 32 && i < |vals| && j < width
    ensures width * i + j < |SymbolBits(vals, width)|
    ensures SymbolBits(vals, width)[width * i + j] == Digit(vals[i], width - 1 - j)
  {
    SymbolAt(vals, width, i);
    NatProduct(width, i);
    SliceIndex(SymbolBits(vals, width), width * i, width, j);
    MsbFirstIndex(vals[i], width, j);
  }

  lemma NatProduct(a: nat, b: nat)
    ensures 0 <= a * b
  {
  }

  lemma SliceIndex(s: seq<Bit>, lo: int, n: nat, j: nat)
    requires 0 <= lo && lo + n <= |s| && j < n
    ensures s[lo..lo + n][j] == s[lo + j]
  {
  }


  lemma SevenBitsFit(v: bv32, n: nat)
    requires n == 7
    ensures v < 0x80 ==> v & LowMask(n) == v
  {
    LowMaskIsShift(n);
  }

  /**
   * An alphanumeric message occupies 7 bits per character, and character `i` can be read
   * back from bits `7i .. 7i + 6`.
   */
  lemma {:induction false} AlphanumericCharBits(message: string, i: nat)
    requires i < |message|
    ensures 7 * i + 7 <= |SymbolBits(CharValues(message), 7)|
    ensures FromMsbFirst(SymbolBits(CharValues(message), 7)[7 * i..7 * i + 7]) == CharValue(message[i])
  {
    var vals := CharValues(message);
    SymbolAt(vals, 7, i);
    FromMsbFirstOfMsbFirst(vals[i], 7);
    SevenBitsFit(vals[i], 7);
  }

  /** An alphanumeric message gives exactly 7 bits per character before padding. */
  lemma {:induction false} AlphanumericBitCount(message: string)
    ensures |SymbolBits(CharValues(message), 7)| == 7 * |message|
  {
    SymbolBitsLength(CharValues(message), 7);
  }

  /** Element `j` of the repeated pattern is element `j % |pattern|` of the pattern. */
  lemma {:induction false} CycleAt(pattern: seq<Bit>, n: nat, j: nat)
    requires |pattern| > 0 && j < n
    ensures Cycle(pattern, n)[j] == pattern[j % |pattern|]
    decreases n
  {
    if j < n - 1 {
      CycleAt(pattern, n - 1, j);
    }
  }

  /** Padding keeps the stream as its prefix and stops at the first multiple of 20. */
  lemma {:induction false} PaddedShape(bits: seq<Bit>, pattern: seq<Bit>)
    requires |pattern| > 0
    ensures Padded(bits, pattern)[..|bits|] == bits
    ensures |bits| <= |Padded(bits, pattern)| < |bits| + 20
  {
  }

  /** The padding bits are the pattern repeated: bit `j` after the stream is pattern bit `j % |pattern|`. */
  lemma {:induction false} PaddingBits(bits: seq<Bit>, pattern: seq<Bit>, j: nat)
    requires |pattern| > 0
    requires |bits| + j < |Padded(bits, pattern)|
    ensures Padded(bits, pattern)[|bits| + j] == pattern[j % |pattern|]
  {
    CycleAt(pattern, PadCount(|bits|), j);
  }

  /** A numeric stream of `4n` bits is padded with whole nibbles. */
  lemma NumericPadWhole(n: nat)
    ensures PadCount(4 * n) % 4 == 0
  {
  }

  /** Codeword `k` is the message codeword of group `k`, bits `20k .. 20k + 19`. */
  lemma {:induction false} GroupAt(bits: seq<Bit>, k: nat)
    requires |bits| % 20 == 0 && k < |bits| / 20
    ensures 20 * k + 20 <= |bits|
    ensures GroupCodewords(bits)[k] == MessageCodeword(FromMsbFirst(bits[20 * k..20 * k + 20]))
    decreases |bits|
  {
    var init := bits[..|bits| - 20];
    if k < |init| / 20 {
      GroupAt(init, k);
      GroupEarlier(bits, init, k, 20 * k);
    } else {
      GroupLast(bits, k);
    }
  }

  lemma {:induction false} GroupEarlier(bits: seq<Bit>, init: seq<Bit>, k: nat, lo: nat)
    requires |bits| % 20 == 0 && 0 < |bits| && init == bits[..|bits| - 20]
    requires k < |init| / 20 && lo == 20 * k && lo + 20 <= |init|
    requires GroupCodewords(init)[k] == MessageCodeword(FromMsbFirst(init[lo..lo + 20]))
    ensures GroupCodewords(bits)[k] == MessageCodeword(FromMsbFirst(bits[lo..lo + 20]))
  {
    SliceOfPrefix(bits, |bits| - 20, lo);
  }

  lemma SliceOfPrefix(bits: seq<Bit>, n: nat, lo: nat)
    requires lo + 20 <= n <= |bits|
    ensures bits[..n][lo..lo + 20] == bits[lo..lo + 20]
  {
  }

  lemma {:induction false} GroupLast(bits: seq<Bit>, k: nat)
    requires |bits| % 20 == 0 && k + 1 == |bits| / 20
    ensures GroupCodewords(bits)[k] == MessageCodeword(FromMsbFirst(bits[20 * k..20 * k + 20]))
  {
    assert bits[20 * k..20 * k + 20] == bits[|bits| - 20..];
  }

  /** Bits 31..12 of codeword `k`, written out most significant first, are group `k` of the stream. */
  lemma {:induction false} GroupPayload(bits: seq<Bit>, k: nat)
    requires |bits| % 20 == 0 && k < |bits| / 20
    ensures 20 * k + 20 <= |bits|
    ensures MsbFirst(GroupCodewords(bits)[k] >> 12, 20) == bits[20 * k..20 * k + 20]
  {
    GroupAt(bits, k);
    var group := bits[20 * k..20 * k + 20];
    PayloadBelow(group);
    MessagePayload(FromMsbFirst(group));
    MsbFirstOfFromMsbFirst(group);
  }

  /** Every codeword built from a group has message flag bit 11 set. */
  lemma {:induction false} GroupFlag(bits: seq<Bit>, k: nat)
    requires |bits| % 20 == 0 && k < |bits| / 20
    ensures Digit(GroupCodewords(bits)[k], 11) == 1
  {
    GroupAt(bits, k);
    var group := bits[20 * k..20 * k + 20];
    PayloadBelow(group);
    MessageFlagSet(FromMsbFirst(group));
  }

  /** Every codeword built from a group has an even number of one bits. */
  lemma {:induction false} GroupEven(bits: seq<Bit>, k: nat)
    requires |bits| % 20 == 0 && k < |bits| / 20
    ensures PopCount(GroupCodewords(bits)[k]) % 2 == 0
  {
    GroupAt(bits, k);
    var group := bits[20 * k..20 * k + 20];
    PayloadBelow(group);
    MessageCodewordEven(FromMsbFirst(group));
  }

  lemma PaddedCount(len: nat)
    ensures (len + PadCount(len)) / 20 == (len + 19) / 20
  {
  }

  /** An alphanumeric message of `n` characters gives `ceil(7n / 20)` codewords; none when it is empty. */
  lemma {:induction false} AlphanumericCount(message: string)
    ensures |AlphanumericCodewords(message)| == (7 * |message| + 19) / 20
  {
    var bits := SymbolBits(CharValues(message), 7);
    AlphanumericBitCount(message);
    PaddedCount(|bits|);
  }

  lemma NumericPaddedCount(n: nat)
    ensures (4 * n + PadCount(4 * n)) / 20 == (n + 4) / 5
  {
    var q, r := n / 5, n % 5;
    assert 4 * n == 20 * q + 4 * r;
    assert (4 * n) % 20 == 4 * r;
    if r == 0 {
      assert 4 * n + PadCount(4 * n) == 20 * q;
    } else {
      assert 4 * n + PadCount(4 * n) == 20 * q + 20;
    }
  }

  /** A numeric message is accepted exactly when every character is in the table, and then gives `ceil(n / 5)` codewords. */
  lemma {:induction false} NumericCount(message: string)
    requires NumericCodewords(message).Ok?
    ensures |NumericCodewords(message).value| == (|message| + 4) / 5
  {
    var vals := NumericValues(message).value;
    var bits := SymbolBits(vals, 4);
    SymbolBitsLength(vals, 4);
    NumericPaddedCount(|message|);
  }

  /** The numeric table is read for every character: the codes are `bcd_map[ch]`, in order, when every character has one. */
  lemma {:induction false} NumericValuesOk(message: string)
    ensures NumericValues(message).Ok? <==> forall i :: 0 <= i < |message| ==> message[i] in BcdMap
    ensures NumericValues(message).Ok? ==> forall i :: 0 <= i < |message| ==> NumericValues(message).value[i] == BcdMap[message[i]]
    decreases |message|
  {
    if |message| > 0 {
      var init := message[..|message| - 1];
      NumericValuesOk(init);
      assert forall i :: 0 <= i < |init| ==> init[i] == message[i];
    }
  }

  /** A rejected numeric message reports the first character the table lacks. */
  lemma {:induction false} NumericValuesError(message: string, i: nat)
    requires i < |message| && message[i] !in BcdMap
    requires forall j :: 0 <= j < i ==> message[j] in BcdMap
    ensures NumericValues(message) == Err(KeyError([message[i]]))
  {
    NumericValuesOk(message[..i]);
    NumericErrorStays(message, i + 1);
  }

  /** The symbol a 4-bit numeric code stands for, if any: the table read backwards. */
  function BcdSymbol(code: bv32): Option<char>
  {
    if code <= 9 then Some(('0' as int + code as int) as char)
    else if code == 0xA then Some('U')
    else if code == 0xB then Some(' ')
    else if code == 0xC then Some('-')
    else if code == 0xD then Some('[')
    else if code == 0xE then Some(']')
    else None
  }

  /** Every numeric symbol's code reads back as that symbol, so distinct symbols have distinct codes. */
  lemma BcdRoundTrip(ch: char)
    requires ch in BcdMap
    ensures BcdSymbol(BcdMap[ch]) == Some(ch)
  {
  }

  /** Every symbol fits in `width` bits: no bit is set above bit `width - 1`. */
  predicate SymbolsFit(vals: seq<bv32>, width: nat)
  {
    forall i :: 0 <= i < |vals| ==> vals[i] & LowMask(width) == vals[i]
  }

  /** A bit stream read back as consecutive `width`-bit numbers, most significant bit first; a trailing partial group is dropped. */
  function ReadSymbols(bits: seq<Bit>, width: nat): seq<bv32>
    requires 0 < width <= 32
    decreases |bits|
  {
    if |bits| < width then [] else [FromMsbFirst(bits[..width])] + ReadSymbols(bits[width..], width)
  }

  lemma FirstSymbol(vals: seq<bv32>, width: nat)
    requires width <= 32 && 0 < |vals|
    ensures SymbolBits(vals, width) == MsbFirst(vals[0], width) + SymbolBits(vals[1..], width)
  {
    var one, rest := [vals[0]], vals[1..];
    assert vals == one + rest;
    SymbolBitsAppend(one, rest, width);
    SingleSymbol(one, vals[0], width);
  }

  lemma SingleSymbol(one: seq<bv32>, v: bv32, width: nat)
    requires width <= 32 && one == [v]
    ensures SymbolBits(one, width) == MsbFirst(v, width)
  {
    assert one[..0] == [];
  }

  /** Regrouping the bits of symbols that fit in `width` bits gives back the symbols. */
  lemma {:induction false} ReadSymbolsOfSymbolBits(vals: seq<bv32>, width: nat)
    requires 0 < width <= 32
    requires SymbolsFit(vals, width)
    ensures ReadSymbols(SymbolBits(vals, width), width) == vals
    decreases |vals|
  {
    var bits := SymbolBits(vals, width);
    if |vals| == 0 {
    } else {
      FirstSymbol(vals, width);
      var head := MsbFirst(vals[0], width);
      assert bits[..width] == head;
      assert bits[width..] == SymbolBits(vals[1..], width);
      FromMsbFirstOfMsbFirst(vals[0], width);
      FitTail(vals, width);
      ReadSymbolsOfSymbolBits(vals[1..], width);
    }
  }

  lemma FitTail(vals: seq<bv32>, width: nat)
    requires 0 < |vals| && SymbolsFit(vals, width)
    ensures SymbolsFit(vals[1..], width)
  {
    forall i | 0 <= i < |vals| - 1
      ensures vals[1..][i] & LowMask(width) == vals[1..][i]
    {
      assert vals[1..][i] == vals[i + 1];
    }
  }

  lemma AllBitsFit(v: bv32, n: nat)
    requires n == 32
    ensures v & LowMask(n) == v
  {
    LowMaskIsShift(n - 1);
  }

  /** Every 32-bit word fits in 32 bits. */
  lemma WordsFit(vals: seq<bv32>)
    ensures SymbolsFit(vals, 32)
  {
    forall i | 0 <= i < |vals|
      ensures vals[i] & LowMask(32) == vals[i]
    {
      AllBitsFit(vals[i], 32);
    }
  }

  /** The 7-bit character codes of a message fit in 7 bits. */
  lemma CharValuesFit(message: string)
    ensures SymbolsFit(CharValues(message), 7)
  {
    var vals := CharValues(message);
    forall i | 0 <= i < |vals|
      ensures vals[i] & LowMask(7) == vals[i]
    {
      SevenBitsFit(vals[i], 7);
    }
  }

  /** The unpadded alphanumeric stream, regrouped 7 bits at a time, gives back the character codes. */
  lemma AlphanumericRoundTrip(message: string)
    ensures ReadSymbols(SymbolBits(CharValues(message), 7), 7) == CharValues(message)
  {
    CharValuesFit(message);
    ReadSymbolsOfSymbolBits(CharValues(message), 7);
  }
}
