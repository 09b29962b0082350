/**
 * Transmission framing: one POCSAG batch (preamble, synchronisation word, eight frames of
 * two codeword slots) and its serialisation into a most-significant-first bit stream.
 */
module Framing {
  import opened Wrappers
  import opened Bits
  import opened Codewords
  import opened Packing

  /** `_PREAMBLE_WORD`: the alternating 1010... pattern. */
  const PreambleWord: bv32 := 0xAAAA_AAAA

  /** The frame synchronisation word that follows the preamble. */
  const SyncWord: bv32 := 0x7CD2_15D8

  /** 18 preamble words: 576 bits. */
  const PreambleWords: nat := 18

  /** 8 frames of 2 slots. */
  const SlotCount: nat := 16

  /** The error `_generate_batch` raises when the message codewords do not fit after the address. */
  const TooLong: Exception := EncodingError("Message too long for single POCSAG batch")

  /** `(ric & 0x7) * 2`: the slot of the address codeword, the first slot of frame `ric & 7`. */
  function AddressPos(ric: int): (pos: nat)
    ensures pos % 2 == 0 && pos <= 14
  {
    (ric % 8) * 2
  }

  /** How many message codewords fit after the address slot. */
  function Room(ric: int): nat
  {
    SlotCount - 1 - AddressPos(ric)
  }

  /** Slot `i` of the batch: the address at `pos`, the message codewords right after it, idle elsewhere. */
  function SlotValue(pos: nat, address: bv32, msgs: seq<bv32>, i: nat): bv32
  {
    if i == pos then address
    else if pos < i <= pos + |msgs| then msgs[i - pos - 1]
    else IdleCodeword
  }

  /** `_generate_batch(ric, address, msgs)` as a value: the 35 words, or the overflow error. */
  function Batch(ric: int, address: bv32, msgs: seq<bv32>): (r: Result<seq<bv32>>)
    ensures r.Ok? ==> |r.value| == PreambleWords + 1 + SlotCount
  {
    if |msgs| > Room(ric) then Err(TooLong)
    else
      var pos := AddressPos(ric);
      Ok(seq(PreambleWords, _ => PreambleWord) + [SyncWord]
         + seq(SlotCount, i requires 0 <= i < SlotCount => SlotValue(pos, address, msgs, i)))
  }

  /** `_codewords_to_bits(words)` as a value: each word as 32 bits, most significant first. */
  function WordBits(words: seq<bv32>): (bits: seq<Bit>)
  {
    SymbolBits(words, 32)
  }

  // ---------------------------------------------------------------------------
  // The loops

  /**
   * `_generate_batch`: 16 idle slots, the address at `(ric & 7) * 2`, then the message
   * codewords from an iterator until it is exhausted or the slots run out; leftover
   * codewords are an error.
   */
  method GenerateBatch(ric: int, address: bv32, msgs: seq<bv32>) returns (r: Result<seq<bv32>>)
    ensures r == Batch(ric, address, msgs)
  {
    var slots := new bv32[SlotCount](_ => IdleCodeword);
    var pos := (ric % 8) * 2;
    slots[pos] := address;
    var placed := 0;
    var idx := pos + 1;
    while idx < SlotCount
      invariant pos + 1 <= idx <= SlotCount
      invariant placed == idx - pos - 1 && placed <= |msgs|
      invariant forall i :: 0 <= i < SlotCount ==>
        slots[i] == (if i == pos then address else if pos < i < idx then msgs[i - pos - 1] else IdleCodeword)
    {
      if placed == |msgs| {
        break;
      }
      slots[idx] := msgs[placed];
      placed := placed + 1;
      idx := idx + 1;
    }
    var remaining := msgs[placed..];
    if |remaining| > 0 {
      return Err(TooLong);
    }
    r := Ok(seq(PreambleWords, _ => PreambleWord) + [SyncWord] + slots[..]);
    assert slots[..] == seq(SlotCount, i requires 0 <= i < SlotCount => SlotValue(pos, address, msgs, i));
  }

  /** `_codewords_to_bits`: the 32 bits of every word in turn, from bit 31 down to bit 0. */
  method CodewordsToBits(words: seq<bv32>) returns (bits: seq<Bit>)
    ensures bits == WordBits(words)
  {
    bits := [];
    var i := 0;
    while i < |words|
      invariant i <= |words|
      invariant bits == SymbolBits(words[..i], 32)
    {
      assert words[..i + 1][..i] == words[..i];
      bits := AppendSymbol(bits, words[i], 32);
      i := i + 1;
    }
    assert words[..i] == words;
  }

  // ---------------------------------------------------------------------------
  // Properties of the batch

  /** A batch is built exactly when the message codewords fit in the slots after the address. */
  lemma BatchFits(ric: int, address: bv32, msgs: seq<bv32>)
    ensures Batch(ric, address, msgs).Ok? <==> |msgs| <= 15 - 2 * (ric % 8)
    ensures Batch(ric, address, msgs).Err? ==> Batch(ric, address, msgs).error == TooLong
  {
  }

  /** The batch starts with 18 preamble words and the synchronisation word. */
  lemma BatchHeader(ric: int, address: bv32, msgs: seq<bv32>, i: nat)
    requires Batch(ric, address, msgs).Ok? && i <= PreambleWords
    ensures Batch(ric, address, msgs).value[i] == if i < PreambleWords then PreambleWord else SyncWord
  {
  }

  /** Slot `2 (ric & 7)` of the batch (word `19 + 2 (ric & 7)`) holds the address codeword. */
  lemma BatchAddress(ric: int, address: bv32, msgs: seq<bv32>)
    requires Batch(ric, address, msgs).Ok?
    ensures Batch(ric, address, msgs).value[PreambleWords + 1 + AddressPos(ric)] == address
  {
  }

  /** The message codewords follow the address slot, all of them and in order. */
  lemma BatchMessages(ric: int, address: bv32, msgs: seq<bv32>)
    requires Batch(ric, address, msgs).Ok?
    ensures PreambleWords + 2 + AddressPos(ric) + |msgs| <= |Batch(ric, address, msgs).value|
    ensures Batch(ric, address, msgs).value[PreambleWords + 2 + AddressPos(ric)..PreambleWords + 2 + AddressPos(ric) + |msgs|] == msgs
  {
    var words := Batch(ric, address, msgs).value;
    var start := PreambleWords + 2 + AddressPos(ric);
    forall j | 0 <= j < |msgs|
      ensures words[start + j] == msgs[j]
    {
      assert words[start + j] == SlotValue(AddressPos(ric), address, msgs, AddressPos(ric) + 1 + j);
    }
  }

  /** Every slot other than the address slot and the message slots holds the idle codeword. */
  lemma BatchIdle(ric: int, address: bv32, msgs: seq<bv32>, i: nat)
    requires Batch(ric, address, msgs).Ok?
    requires i < SlotCount && !(AddressPos(ric) <= i <= AddressPos(ric) + |msgs|)
    ensures Batch(ric, address, msgs).value[PreambleWords + 1 + i] == IdleCodeword
  {
  }

  // ---------------------------------------------------------------------------
  // Properties of the serialisation

  /** Every word becomes exactly 32 bits. */
  lemma WordBitsLength(words: seq<bv32>)
    ensures |WordBits(words)| == 32 * |words|
  {
    SymbolBitsLength(words, 32);
  }

  /** Bits `32i .. 32i + 31` are word `i`, most significant bit first. */
  lemma WordBitsAt(words: seq<bv32>, i: nat)
    requires i < |words|
    ensures 32 * i + 32 <= |WordBits(words)|
    ensures WordBits(words)[32 * i..32 * i + 32] == MsbFirst(words[i], 32)
  {
    SymbolAt(words, 32, i);
  }

  /** Regrouping the bit stream 32 bits at a time gives back the words. */
  lemma WordBitsRoundTrip(words: seq<bv32>)
    ensures ReadSymbols(WordBits(words), 32) == words
  {
    WordsFit(words);
    ReadSymbolsOfSymbolBits(words, 32);
  }

  lemma PreambleDigit(w: bv32, s: nat)
    requires w == PreambleWord && s < 32
    ensures Digit(w, s) == if s % 2 == 1 then 1 else 0
  {
  }

  /** Bit `32i + j` of the stream is bit `31 - j` of word `i`. */
  lemma WordBitAt(words: seq<bv32>, i: nat, j: nat)
    requires i < |words| && j < 32
    ensures 32 * i + j < |WordBits(words)|
    ensures WordBits(words)[32 * i + j] == Digit(words[i], 31 - j)
  {
    SymbolBitAt(words, 32, i, j);
  }

  lemma SplitIndex(k: nat) returns (i: nat, j: nat)
    ensures k == 32 * i + j && j < 32
    ensures (31 - j) % 2 == 1 <==> k % 2 == 0
  {
    i, j := k / 32, k % 32;
  }

  /** The first 576 bits of a serialised batch alternate 1, 0, 1, 0, ... */
  lemma PreambleBits(ric: int, address: bv32, msgs: seq<bv32>, k: nat)
    requires Batch(ric, address, msgs).Ok? && k < 32 * PreambleWords
    ensures k < |WordBits(Batch(ric, address, msgs).value)|
    ensures WordBits(Batch(ric, address, msgs).value)[k] == if k % 2 == 0 then 1 else 0
  {
    var words := Batch(ric, address, msgs).value;
    var i, j := SplitIndex(k);
    BatchHeader(ric, address, msgs, i);
    WordBitAt(words, i, j);
    PreambleDigit(words[i], 31 - j);
  }

  /** A serialised batch is 35 words long: 1120 bits. */
  lemma BatchBitCount(ric: int, address: bv32, msgs: seq<bv32>)
    requires Batch(ric, address, msgs).Ok?
    ensures |WordBits(Batch(ric, address, msgs).value)| == 1120
  {
    WordBitsLength(Batch(ric, address, msgs).value);
  }
}
