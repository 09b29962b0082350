/**
 * The pure-Python POCSAG encoder end to end: input validation, the address codeword, the
 * message codewords, one batch, the bit stream and the per-sample tone, with every failure
 * re-raised as an `EncodingError` carrying the original message.
 */
module Encoder {
  import opened Wrappers
  import opened Bits
  import opened Codewords
  import opened Packing
  import opened Framing
  import opened Modulation
  import opened Values

  /** `2^21 - 1`: the largest RIC the address codeword can hold. */
  const MaxRic: nat := 2_097_151

  /** The only supported baud rate. */
  const Baud: nat := 512

  const RicFormatError: Exception := ValueError("RIC must be a digit string of length 1-7")
  const RicRangeError: Exception := ValueError("RIC out of range (0 to 2,097,151)")
  const TypeNameError: Exception := ValueError("message_type must be 'alphanumeric' or 'numeric'")
  const BaudError: Exception := ValueError("Only 512 baud is supported")
  const AlphaCharError: Exception := ValueError("Alphanumeric messages must use printable ASCII (0x20-0x7E)")
  const NumericCharError: Exception := ValueError("Numeric messages may contain digits, space, U, -, [, ]")

  /** The characters a numeric message may hold: digits, space, U, -, [ and ]. */
  const NumericChars: set<char> := {'0', '1', '2', '3', '4', '5', '6', '7', '8', '9', 'U', '-', '[', ']', ' '}

  /** The RIC is a string of one to seven digits. */
  predicate RicWellFormed(ric: string)
  {
    AllDigits(ric) && 1 <= |ric| <= 7
  }

  /** `_validate_inputs`: the checks in order; the first that fails decides the error. Over-long messages only warn. */
  function ValidateInputs(ric: string, message: string, messageType: string, baud: int): Outcome
  {
    if !RicWellFormed(ric) then Fail(RicFormatError)
    else if DigitsValue(ric) > MaxRic then Fail(RicRangeError)
    else if messageType != "alphanumeric" && messageType != "numeric" then Fail(TypeNameError)
    else if baud != Baud then Fail(BaudError)
    else if messageType == "alphanumeric" then
      if exists i :: 0 <= i < |message| && !Printable(message[i]) then Fail(AlphaCharError) else Pass
    else if exists i :: 0 <= i < |message| && message[i] !in NumericChars then Fail(NumericCharError)
    else Pass
  }

  /** The message codewords for the message type: `_encode_alphanumeric` or `_encode_numeric`. */
  function MessageWords(message: string, messageType: string): Result<seq<bv32>>
  {
    if messageType == "alphanumeric" then Ok(AlphanumericCodewords(message)) else NumericCodewords(message)
  }

  /** The 35 words `encode` transmits, or the first failure before modulation. */
  function TransmissionWords(ric: string, message: string, messageType: string, baud: int): Result<seq<bv32>>
  {
    if ValidateInputs(ric, message, messageType, baud).Fail? then Err(ValidateInputs(ric, message, messageType, baud).error)
    else
      var ricValue := DigitsValue(ric);
      var msgs :- MessageWords(message, messageType);
      Batch(ricValue, AddressCodeword(ricValue), msgs)
  }

  /** The pipeline of `encode` before the error wrapping: words, bits, then one tone per sample. */
  function Pipeline(ric: string, message: string, messageType: string, baud: int, sampleRateHz: nat, deviation: int): Result<seq<int>>
  {
    var words :- TransmissionWords(ric, message, messageType, baud);
    match SamplesPerBit(sampleRateHz, Baud)
    case Err(e) => Err(e)
    case Ok(spb) =>
      if PhaseScale(sampleRateHz).Fail? then Err(PhaseScale(sampleRateHz).error)
      else Ok(Frequencies(WordBits(words), spb, deviation))
  }

  /** `encode`: the pipeline, with every exception re-raised as `EncodingError(str(exc))`. */
  function EncodeValue(ric: string, message: string, messageType: string, baud: int, sampleRateHz: nat, deviation: int): Result<seq<int>>
  {
    match Pipeline(ric, message, messageType, baud, sampleRateHz, deviation)
    case Ok(samples) => Ok(samples)
    case Err(e) => Err(EncodingError(e.Text()))
  }

  /** `encode` as the encoder runs it: each stage's loop, in order. */
  method Encode(ric: string, message: string, messageType: string, baud: int, sampleRateHz: nat, deviation: int) returns (r: Result<seq<int>>)
    ensures r == EncodeValue(ric, message, messageType, baud, sampleRateHz, deviation)
  {
    var check := ValidateInputs(ric, message, messageType, baud);
    if check.Fail? {
      return Err(EncodingError(check.error.Text()));
    }
    var ricValue := DigitsValue(ric);
    var address := AddressCodeword(ricValue);
    var msgs: seq<bv32>;
    if messageType == "alphanumeric" {
      msgs := EncodeAlphanumeric(message);
    } else {
      var numeric := EncodeNumeric(message);
      if numeric.Err? {
        return Err(EncodingError(numeric.error.Text()));
      }
      msgs := numeric.value;
    }
    var batch := GenerateBatch(ricValue, address, msgs);
    if batch.Err? {
      return Err(EncodingError(batch.error.Text()));
    }
    var bits := CodewordsToBits(batch.value);
    var spb := sampleRateHz / Baud;
    var scale := PhaseScale(sampleRateHz);
    if scale.Fail? {
      return Err(EncodingError(scale.error.Text()));
    }
    var samples := ModulateFsk(bits, spb, deviation);
    r := Ok(samples[..]);
  }

  // ---------------------------------------------------------------------------
  // Properties

  /** Validation passes exactly when every check does; the message length plays no part. */
  lemma ValidatePass(ric: string, message: string, messageType: string, baud: int)
    ensures ValidateInputs(ric, message, messageType, baud) == Pass <==>
      RicWellFormed(ric) && DigitsValue(ric) <= MaxRic
      && (messageType == "alphanumeric" || messageType == "numeric")
      && baud == 512
      && (messageType == "alphanumeric" ==> forall i :: 0 <= i < |message| ==> Printable(message[i]))
      && (messageType == "numeric" ==> forall i :: 0 <= i < |message| ==> message[i] in NumericChars)
  {
  }

  /** Every rejection is a `ValueError`, and a malformed RIC is reported before anything else is looked at. */
  lemma ValidateErrors(ric: string, message: string, messageType: string, baud: int)
    ensures ValidateInputs(ric, message, messageType, baud).Fail? ==> ValidateInputs(ric, message, messageType, baud).error.ValueError?
    ensures !RicWellFormed(ric) ==> ValidateInputs(ric, message, messageType, baud) == Fail(RicFormatError)
  {
  }

  /** The numeric character set is exactly the key set of the BCD table. */
  lemma NumericCharsAreTable()
    ensures NumericChars == BcdMap.Keys
  {
  }

  /** A numeric message that passes validation always packs: `bcd_map[ch]` never fails after validation. */
  lemma ValidNumericPacks(ric: string, message: string, baud: int)
    requires ValidateInputs(ric, message, "numeric", baud) == Pass
    ensures NumericCodewords(message).Ok?
  {
    ValidatePass(ric, message, "numeric", baud);
    NumericCharsAreTable();
    NumericValuesOk(message);
  }

  /** Whatever fails inside `encode` comes out as an `EncodingError`; a validation failure keeps its message. */
  lemma EncodeErrorsWrapped(ric: string, message: string, messageType: string, baud: int, sampleRateHz: nat, deviation: int)
    ensures EncodeValue(ric, message, messageType, baud, sampleRateHz, deviation).Err? ==>
      EncodeValue(ric, message, messageType, baud, sampleRateHz, deviation).error.EncodingError?
    ensures ValidateInputs(ric, message, messageType, baud).Fail? ==>
      EncodeValue(ric, message, messageType, baud, sampleRateHz, deviation)
      == Err(EncodingError(ValidateInputs(ric, message, messageType, baud).error.message))
  {
  }

  /**
   * `encode` succeeds exactly when validation passes, the message codewords fit after the
   * address slot and the sample rate is not zero.
   */
  lemma EncodeSucceeds(ric: string, message: string, messageType: string, baud: int, sampleRateHz: nat, deviation: int)
    ensures EncodeValue(ric, message, messageType, baud, sampleRateHz, deviation).Ok? <==>
      ValidateInputs(ric, message, messageType, baud) == Pass
      && MessageWords(message, messageType).Ok?
      && |MessageWords(message, messageType).value| <= 15 - 2 * (DigitsValue(ric) % 8)
      && sampleRateHz > 0
    ensures ValidateInputs(ric, message, messageType, baud) == Pass ==> MessageWords(message, messageType).Ok?
  {
    if ValidateInputs(ric, message, messageType, baud) == Pass {
      if messageType == "numeric" {
        ValidNumericPacks(ric, message, baud);
      }
      if MessageWords(message, messageType).Ok? {
        var n := DigitsValue(ric);
        BatchFits(n, AddressCodeword(n), MessageWords(message, messageType).value);
      }
    }
  }

  /** A zero sample rate makes the phase step divide by zero, which `encode` reports as an `EncodingError`. */
  lemma ZeroRateFails(ric: string, message: string, messageType: string, baud: int, deviation: int)
    requires TransmissionWords(ric, message, messageType, baud).Ok?
    ensures EncodeValue(ric, message, messageType, baud, 0, deviation) == Err(EncodingError("float division by zero"))
  {
  }

  /** A successful `encode` transmits 35 words: 1120 bits of `int(sample_rate_hz / 512)` samples each. */
  lemma EncodeSampleCount(ric: string, message: string, messageType: string, baud: int, sampleRateHz: nat, deviation: int)
    requires EncodeValue(ric, message, messageType, baud, sampleRateHz, deviation).Ok?
    ensures |EncodeValue(ric, message, messageType, baud, sampleRateHz, deviation).value| == (sampleRateHz / 512) * 1120
  {
    var words := TransmissionWords(ric, message, messageType, baud).value;
    var n := DigitsValue(ric);
    BatchBitCount(n, AddressCodeword(n), MessageWords(message, messageType).value);
    FrequenciesLength(WordBits(words), sampleRateHz / 512, deviation);
  }

  /** The samples of `spb` per bit over a stream whose first 576 bits alternate 1, 0. */
  lemma PreambleSamples(bits: seq<Bit>, spb: nat, deviation: int, i: nat)
    requires |bits| == 1120
    requires forall k :: 0 <= k < 576 ==> bits[k] == if k % 2 == 0 then 1 else 0
    requires i < spb * 576
    ensures i < |Frequencies(bits, spb, deviation)|
    ensures Frequencies(bits, spb, deviation)[i] == if (i / spb) % 2 == 0 then deviation else -deviation
  {
    MulMono(spb, 576, 1120);
    FrequencyAt(bits, spb, deviation, i);
    EarlierRun(577, spb, i);
  }

  lemma BatchPreambleBits(n: int, address: bv32, msgs: seq<bv32>)
    requires Batch(n, address, msgs).Ok?
    ensures |WordBits(Batch(n, address, msgs).value)| == 1120
    ensures forall k :: 0 <= k < 576 ==> WordBits(Batch(n, address, msgs).value)[k] == if k % 2 == 0 then 1 else 0
  {
    BatchBitCount(n, address, msgs);
    forall k | 0 <= k < 576
      ensures WordBits(Batch(n, address, msgs).value)[k] == if k % 2 == 0 then 1 else 0
    {
      PreambleBits(n, address, msgs, k);
    }
  }

  /** In a successful `encode`, the samples of the 576 preamble bits alternate `+deviation`, `-deviation` bit by bit. */
  lemma EncodePreamble(ric: string, message: string, messageType: string, baud: int, sampleRateHz: nat, deviation: int, i: nat)
    requires EncodeValue(ric, message, messageType, baud, sampleRateHz, deviation).Ok?
    requires i < (sampleRateHz / 512) * 576
    ensures i < |EncodeValue(ric, message, messageType, baud, sampleRateHz, deviation).value|
    ensures EncodeValue(ric, message, messageType, baud, sampleRateHz, deviation).value[i]
      == if (i / (sampleRateHz / 512)) % 2 == 0 then deviation else -deviation
  {
    var n := DigitsValue(ric);
    var msgs := MessageWords(message, messageType).value;
    var words := TransmissionWords(ric, message, messageType, baud).value;
    assert words == Batch(n, AddressCodeword(n), msgs).value;
    var spb := sampleRateHz / 512;
    assert EncodeValue(ric, message, messageType, baud, sampleRateHz, deviation).value == Frequencies(WordBits(words), spb, deviation);
    BatchPreambleBits(n, AddressCodeword(n), msgs);
    PreambleSamples(WordBits(words), spb, deviation, i);
  }

  /** The address codeword of the RIC sits in the first slot of frame `ric % 8`. */
  lemma EncodeAddressSlot(ric: string, message: string, messageType: string, baud: int)
    requires TransmissionWords(ric, message, messageType, baud).Ok?
    ensures TransmissionWords(ric, message, messageType, baud).value[19 + 2 * (DigitsValue(ric) % 8)]
      == AddressCodeword(DigitsValue(ric))
  {
    var n := DigitsValue(ric);
    BatchAddress(n, AddressCodeword(n), MessageWords(message, messageType).value);
  }

  lemma HelloCount(message: string)
    requires message == "Hello POCSAG"
    ensures |AlphanumericCodewords(message)| == 5
  {
    AlphanumericCount(message);
  }

  lemma RicDigits(ric: string)
    requires ric == "1234567"
    ensures RicWellFormed(ric) && DigitsValue(ric) == 1234567
  {
    assert DigitsValue("1") == 1 by { assert "1"[..0] == ""; }
    assert DigitsValue("12") == 12 by { assert "12"[..1] == "1"; }
    assert DigitsValue("123") == 123 by { assert "123"[..2] == "12"; }
    assert DigitsValue("1234") == 1234 by { assert "1234"[..3] == "123"; }
    assert DigitsValue("12345") == 12345 by { assert "12345"[..4] == "1234"; }
    assert DigitsValue("123456") == 123456 by { assert "123456"[..5] == "12345"; }
    assert ric[..6] == "123456";
  }

  lemma RicFrame(ric: string)
    requires ric == "1234567"
    ensures DigitsValue(ric) % 8 == 7
  {
    RicDigits(ric);
  }

  lemma HelloValid(ric: string, message: string)
    requires ric == "1234567" && message == "Hello POCSAG"
    ensures ValidateInputs(ric, message, "alphanumeric", 512) == Pass
  {
    RicDigits(ric);
    assert forall i :: 0 <= i < |message| ==> Printable(message[i]);
  }

  lemma OverflowAt(ric: string, message: string, sampleRateHz: nat, deviation: int)
    requires ValidateInputs(ric, message, "alphanumeric", 512) == Pass
    requires DigitsValue(ric) % 8 == 7
    requires |AlphanumericCodewords(message)| > 1
    ensures EncodeValue(ric, message, "alphanumeric", 512, sampleRateHz, deviation)
      == Err(EncodingError("Message too long for single POCSAG batch"))
  {
    var n := DigitsValue(ric);
    BatchFits(n, AddressCodeword(n), AlphanumericCodewords(message));
  }

  /** RIC 1234567 addresses frame 7, which leaves one slot: "Hello POCSAG" (five codewords) does not fit. */
  lemma HelloOverflows(ric: string, message: string, sampleRateHz: nat, deviation: int)
    requires ric == "1234567" && message == "Hello POCSAG"
    ensures EncodeValue(ric, message, "alphanumeric", 512, sampleRateHz, deviation)
      == Err(EncodingError("Message too long for single POCSAG batch"))
  {
    RicFrame(ric);
    HelloCount(message);
    HelloValid(ric, message);
    OverflowAt(ric, message, sampleRateHz, deviation);
  }
}
