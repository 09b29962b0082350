# PiSAG paging core in Dafny

PiSAG is a POCSAG paging transmitter. A web front end takes a message for one or more
pagers and the message service checks it. The service stores the message and hands a
transmission request to a queue. A background worker takes each request off the queue,
encodes it into a POCSAG transmission and drives a HackRF software radio. A monitor
watches the radio, pauses the queue when the radio disappears and resumes it on
reconnection. Configuration is a JSON-like tree of defaults, file contents and database
overrides.

This project models that core and proves properties of the model:

- **The POCSAG encoder** (`Bits`, `Bch`, `Codewords`, `Packing`, `Framing`, `Modulation`, `Encoder`):
  - input validation;
  - BCH(31,21) check bits by GF(2) division with generator `0x769`, and even parity;
  - address and message codewords;
  - alphanumeric (7-bit) and numeric (BCD) packing into 20-bit groups;
  - the single batch of preamble, sync word, address, message codewords and idle fill;
  - serialisation to bits, most significant first;
  - the integer skeleton of the 2-FSK modulator: one tone per sample;
  - the wrapping of every failure as `EncodingError`.
  The loops that build the codewords, the batch, the bit stream and the samples are methods
  proved equal to specification functions. The validation loops are predicates. The
  properties are lemmas about those functions.
- **Request acceptance** (`Validation`, `MessageService`):
  - the predicates and the sanitiser;
  - recipient normalisation;
  - the order of the checks;
  - the request `send_message` enqueues, and `resend_message`.
- **The transmission queue** (`Queue`): a class holding a sequence of requests and a pause flag.
- **Configuration** (`Config`, `SystemConfig`):
  - the default tree and the recursive merge;
  - dotted-key overrides and typed-value decoding;
  - the required-key and range checks;
  - the database table of typed settings, as a class of records.
- **Control state** (`Status`, `Monitor`, `Worker`):
  - the process-wide status flags and counters;
  - one iteration of the device monitor;
  - the worker's handling of one request, as a method that produces the trace of its
    status writes, log entries, emits and radio calls.
- **End to end** (`EndToEnd`):
  - a request the service builds is accepted by the queue and read whole by the
    worker, which serves its recipients in order;
  - the service's RIC check admits RICs that the encoder refuses.

External effects are parameters or trace events. These cover the radio itself, the
encoder as the worker sees it, the database, the UI emitters, the clock, `float()`,
`json.loads` and `str()` of arbitrary values.

### Where the code is followed rather than its descriptions

- Packing is most significant bit first, both for characters and for BCD digits.
- Each codeword is `(cw31 << 1) | even` with the parity bit as bit 0. RIC 1234567 therefore
  gives `0x96B43449`, not the unshifted `0x4B5A1A25` that the encoder test expects.
- Only one batch is built. Message codewords that do not fit after the address slot are
  an error. RIC 1234567 addresses frame 7, which leaves one slot, so "Hello POCSAG" (five
  codewords) is rejected; the full-pipeline test expects it to encode.
- There is no polarity flag.
- RICs 1003832 and 1003833 give an address codeword equal to the idle codeword.
- The service accepts any seven-digit RIC, while the encoder accepts only RICs up to
  2,097,151.
- The loader's `_deserialize_value` lowercases the type name and decodes `json`.
  `get_typed_value` does neither, so the two readers disagree on "INT" and on `json`.
- On reconnection with a `pocsag` section that is not a dict, the monitor sets the status
  and then fails at `pocsag_cfg.get`, so the queue is never resumed.

## Model

| member | source | states |
|---|---|---|
| Bits.MsbFirst | pisag/plugins/encoders/pure_python.py:282-287 | the bit list has exactly `width` elements |
| Bits.MsbFirstIndex | pisag/plugins/encoders/pure_python.py:285-286 | element `i` of the most-significant-first expansion is bit `width - 1 - i` of the word |
| Bits.MsbFirstOfFromMsbFirst | pisag/plugins/encoders/pure_python.py:180-181 | reading at most 32 bits into a number and writing it back out gives the same bits |
| Bits.FromMsbFirstOfMsbFirst | pisag/plugins/encoders/pure_python.py:180-181 | writing out the low `width` bits and reading them back gives the word with higher bits cleared |
| Bits.PopCountShiftIn | pisag/plugins/encoders/pure_python.py:156-158 | shifting a 31-bit value left and filling bit 0 with `b` adds exactly `b` one bits |
| Bch.DivisionRound | pisag/plugins/encoders/pure_python.py:142-143 | one loop round cancels bit `i + 10` with `0x769 << i` exactly when it is set |
| Bch.CalculateBchParity | pisag/plugins/encoders/pure_python.py:138-144 | the loop computes the specification `Parity(data, dataBits)` |
| Bch.ParityBelow | pisag/plugins/encoders/pure_python.py:144 | the check bits are below 1024 |
| Bch.ReduceSpan | pisag/plugins/encoders/pure_python.py:141-143 | `k` rounds change the register only by a GF(2) multiple of the generator of degree below `k` |
| Bch.ReduceFits | pisag/plugins/encoders/pure_python.py:141-144 | `k` rounds over a register of `k + 10` bits leave a remainder of ten bits |
| Bch.ParityMakesCodeword | pisag/plugins/encoders/pure_python.py:138-144 | data shifted left by ten with its check bits appended is a GF(2) multiple of the generator, that is, a BCH(31,21) codeword |
| Bch.KnownParity | pisag/plugins/encoders/pure_python.py:138-144 | data word `0x12D686` has check bits `0x224` |
| Codewords.EvenParity | pisag/plugins/encoders/pure_python.py:146-148 | the parity bit makes the total number of one bits even |
| Codewords.AddressData | pisag/plugins/encoders/pure_python.py:152-154 | the address data word fits in 21 bits |
| Codewords.CodewordEvenWeight | pisag/plugins/encoders/pure_python.py:156-158 | every codeword has an even number of one bits |
| Codewords.CodewordIsBch | pisag/plugins/encoders/pure_python.py:155-158 | a codeword without its parity bit is a BCH(31,21) codeword |
| Codewords.CodewordData | pisag/plugins/encoders/pure_python.py:156-158 | bits 31..11 of a codeword give back its data word |
| Codewords.AddressFlagClear | pisag/plugins/encoders/pure_python.py:154 | an address codeword has flag bit 11 clear |
| Codewords.AddressCodewordAddress | pisag/plugins/encoders/pure_python.py:152-158 | bits 31..14 of the address codeword are `(ric >> 3) & 0x3FFFF` |
| Codewords.AddressCodewordFunction | pisag/plugins/encoders/pure_python.py:153-158 | bits 13..12 of the address codeword are `(ric >> 1) & 3` |
| Codewords.AddressCodewordEven | pisag/plugins/encoders/pure_python.py:157-158 | the address codeword has even weight |
| Codewords.AddressCodewordBch | pisag/plugins/encoders/pure_python.py:155-158 | the address codeword without its parity bit is a BCH codeword |
| Codewords.MessageFlagSet | pisag/plugins/encoders/pure_python.py:182 | a message codeword has flag bit 11 set |
| Codewords.MessagePayload | pisag/plugins/encoders/pure_python.py:182-186 | bits 31..12 of a message codeword are its 20-bit payload |
| Codewords.MessageCodewordEven | pisag/plugins/encoders/pure_python.py:184-186 | a message codeword has even weight |
| Codewords.MessageCodewordBch | pisag/plugins/encoders/pure_python.py:183-186 | a message codeword without its parity bit is a BCH codeword |
| Codewords.KnownAddress | pisag/plugins/encoders/pure_python.py:151-160 | RIC 1234567 gives the address codeword `0x96B43449` |
| Codewords.IdleAddress | pisag/plugins/encoders/pure_python.py:151-160 | RICs 1003832 and 1003833 give an address codeword equal to the idle codeword `0x7A89C197` |
| Packing.CharValue | pisag/plugins/encoders/pure_python.py:165 | a character's code `ord(ch) & 0x7F` is below 128 |
| Packing.CharValues | pisag/plugins/encoders/pure_python.py:164-165 | there is one code per character |
| Packing.Padded | pisag/plugins/encoders/pure_python.py:169-174 | the padded stream's length is a multiple of 20 |
| Packing.GroupCodewords | pisag/plugins/encoders/pure_python.py:176-186 | there is one codeword per 20-bit group |
| Packing.NumericValues | pisag/plugins/encoders/pure_python.py:214-215 | when it succeeds there is one BCD code per character |
| Packing.AppendSymbol | pisag/plugins/encoders/pure_python.py:166-167 | the inner loop appends the symbol's `width` bits, most significant first |
| Packing.PadToGroup | pisag/plugins/encoders/pure_python.py:169-174 | the padding loop yields the stream followed by a prefix of the repeated pad symbol, up to a multiple of 20 |
| Packing.ReadGroup | pisag/plugins/encoders/pure_python.py:179-181 | the payload loop reads the 20 bits most significant first |
| Packing.GroupCodeword | pisag/plugins/encoders/pure_python.py:182-186 | the loop body builds the message codeword of the payload |
| Packing.PackGroups | pisag/plugins/encoders/pure_python.py:177-186 | the group loop yields the codeword of every group in order |
| Packing.EncodeAlphanumeric | pisag/plugins/encoders/pure_python.py:162-192 | the method computes the specification `AlphanumericCodewords` |
| Packing.EncodeNumeric | pisag/plugins/encoders/pure_python.py:194-242 | the method computes `NumericCodewords`, including the `KeyError` of an unknown character |
| Packing.AlphanumericBitCount | pisag/plugins/encoders/pure_python.py:164-167 | n characters give 7n bits before padding |
| Packing.AlphanumericCharBits | pisag/plugins/encoders/pure_python.py:164-167 | bits `7i .. 7i + 6` read back as character `i`'s code |
| Packing.AlphanumericRoundTrip | pisag/plugins/encoders/pure_python.py:164-167 | regrouping the unpadded stream seven bits at a time gives back the character codes |
| Packing.PaddedShape | pisag/plugins/encoders/pure_python.py:169-174 | padding keeps the stream as its prefix and adds fewer than 20 bits |
| Packing.PaddingBits | pisag/plugins/encoders/pure_python.py:170-174 | padding bit `j` is bit `j mod |pattern|` of the pad symbol's pattern |
| Packing.NumericPadWhole | pisag/plugins/encoders/pure_python.py:219-224 | a numeric stream is padded with whole `0xB` nibbles |
| Packing.GroupAt | pisag/plugins/encoders/pure_python.py:177-186 | codeword `k` is the message codeword of bits `20k .. 20k + 19` |
| Packing.GroupPayload | pisag/plugins/encoders/pure_python.py:178-186 | bits 31..12 of codeword `k`, written out, are group `k` of the stream |
| Packing.GroupFlag | pisag/plugins/encoders/pure_python.py:182 | every message codeword has flag bit 11 set |
| Packing.GroupEven | pisag/plugins/encoders/pure_python.py:184-186 | every message codeword has even weight |
| Packing.AlphanumericCount | pisag/plugins/encoders/pure_python.py:162-186 | n characters give ⌈7n/20⌉ codewords, none for an empty message |
| Packing.NumericCount | pisag/plugins/encoders/pure_python.py:213-236 | an accepted numeric message of n characters gives ⌈n/5⌉ codewords |
| Packing.NumericValuesOk | pisag/plugins/encoders/pure_python.py:195-215 | the BCD codes exist exactly when every character is in the table, and then are the table entries in order |
| Packing.NumericValuesError | pisag/plugins/encoders/pure_python.py:215 | a rejected numeric message reports `KeyError` for its first character outside the table |
| Packing.BcdRoundTrip | pisag/plugins/encoders/pure_python.py:195-211 | distinct numeric symbols have distinct codes: each code reads back as its symbol |
| Packing.ReadSymbolsOfSymbolBits | pisag/plugins/encoders/pure_python.py:213-217 | regrouping the bits of symbols that fit their width gives back the symbols |
| Framing.AddressPos | pisag/plugins/encoders/pure_python.py:250 | the address slot is even and at most 14 |
| Framing.Batch | pisag/plugins/encoders/pure_python.py:245-279 | a batch has 18 + 1 + 16 = 35 words |
| Framing.GenerateBatch | pisag/plugins/encoders/pure_python.py:245-279 | the in-place slot filling with its iterator computes the specification `Batch` |
| Framing.CodewordsToBits | pisag/plugins/encoders/pure_python.py:282-287 | the serialisation loop computes `WordBits` |
| Framing.BatchFits | pisag/plugins/encoders/pure_python.py:253-268 | a batch is built exactly when there are at most `15 - 2·(ric mod 8)` message codewords, and the error is otherwise "Message too long for single POCSAG batch" |
| Framing.BatchHeader | pisag/plugins/encoders/pure_python.py:246-247 | the batch starts with 18 words `0xAAAAAAAA` and the sync word `0x7CD215D8` |
| Framing.BatchAddress | pisag/plugins/encoders/pure_python.py:250-251 | slot `2·(ric & 7)` holds the address codeword |
| Framing.BatchMessages | pisag/plugins/encoders/pure_python.py:253-260 | the message codewords follow the address slot, all of them, in order |
| Framing.BatchIdle | pisag/plugins/encoders/pure_python.py:249 | every other slot holds the idle codeword |
| Framing.WordBitsLength | pisag/plugins/encoders/pure_python.py:282-287 | every word becomes exactly 32 bits |
| Framing.WordBitsAt | pisag/plugins/encoders/pure_python.py:284-286 | bits `32i .. 32i + 31` are word `i`, most significant first |
| Framing.WordBitAt | pisag/plugins/encoders/pure_python.py:285-286 | bit `32i + j` of the stream is bit `31 - j` of word `i` |
| Framing.WordBitsRoundTrip | pisag/plugins/encoders/pure_python.py:282-287 | regrouping the stream 32 bits at a time gives back the words |
| Framing.PreambleBits | pisag/plugins/encoders/pure_python.py:246 | the first 576 bits of a serialised batch alternate 1, 0 |
| Framing.BatchBitCount | pisag/plugins/encoders/pure_python.py:279-287 | a serialised batch has 1120 bits |
| Modulation.BitFrequency | pisag/plugins/encoders/pure_python.py:300 | bit 1 gets `+deviation` and bit 0 gets `-deviation` |
| Modulation.SamplesPerBit | pisag/plugins/encoders/pure_python.py:291 | the samples per bit are the floor of rate divided by baud, and a zero baud is a division error |
| Modulation.PhaseScale | pisag/plugins/encoders/pure_python.py:297 | the phase step `2π / sample_rate_hz` raises exactly when the sample rate is zero |
| Modulation.ModulateFsk | pisag/plugins/encoders/pure_python.py:290-307 | the preallocated buffer filled through a running index holds `Frequencies(bits, spb, deviation)` |
| Modulation.FrequenciesLength | pisag/plugins/encoders/pure_python.py:291-292 | there are `samples_per_bit · len(bits)` samples |
| Modulation.FrequencyAt | pisag/plugins/encoders/pure_python.py:299-305 | sample `i` is at the tone of bit `i / samples_per_bit` |
| Encoder.ValidatePass | pisag/plugins/encoders/pure_python.py:112-135 | validation passes exactly when the RIC is 1–7 digits up to 2,097,151, the type is known, the baud is 512 and every character is in the type's set; the length plays no part |
| Encoder.ValidateErrors | pisag/plugins/encoders/pure_python.py:113-132 | every rejection is a `ValueError`, and a malformed RIC is reported first |
| Encoder.NumericCharsAreTable | pisag/plugins/encoders/pure_python.py:195-211 | the characters numeric validation allows are exactly the keys of the BCD table |
| Encoder.ValidNumericPacks | pisag/plugins/encoders/pure_python.py:213-217 | a numeric message that validation accepts never meets the `KeyError` of the BCD lookup |
| Encoder.Encode | pisag/plugins/encoders/pure_python.py:57-109 | running each stage's loop computes the specification `EncodeValue` |
| Encoder.EncodeErrorsWrapped | pisag/plugins/encoders/pure_python.py:107-109 | every failure comes out as `EncodingError`, and a validation failure keeps its message |
| Encoder.EncodeSucceeds | pisag/plugins/encoders/pure_python.py:73-106 | `encode` succeeds exactly when validation passes, the codewords fit after the address slot and the sample rate is not zero |
| Encoder.ZeroRateFails | pisag/plugins/encoders/pure_python.py:297 | with a zero sample rate the phase step divides by zero, and `encode` fails with `EncodingError("float division by zero")` |
| Encoder.EncodeSampleCount | pisag/plugins/encoders/pure_python.py:290-292 | a successful encode yields `int(rate/512) · 1120` samples |
| Encoder.EncodePreamble | pisag/plugins/encoders/pure_python.py:299-305 | the samples of the 576 preamble bits alternate `+deviation` and `-deviation`, bit by bit |
| Encoder.EncodeAddressSlot | pisag/plugins/encoders/pure_python.py:249-251 | word `19 + 2·(ric mod 8)` of the transmission is the RIC's address codeword |
| Encoder.HelloOverflows | pisag/plugins/encoders/pure_python.py:250-268 | RIC 1234567 with "Hello POCSAG" fails with "Message too long for single POCSAG batch" |
| Validation.SanitizeMessageText | pisag/utils/validation.py:31-34 | the output is no longer than the input |
| Validation.SanitizeSubsequence | pisag/utils/validation.py:31-34 | the output is a subsequence of the input |
| Validation.SanitizePasses | pisag/utils/validation.py:31-40 | sanitised text always passes content validation for the same type |
| Validation.SanitizeKeepsValid | pisag/utils/validation.py:31-40 | valid text is left unchanged |
| Validation.SanitizeIdempotent | pisag/utils/validation.py:31-34 | sanitising twice is sanitising once |
| Validation.SanitizeChangesInvalid | pisag/utils/validation.py:31-40 | the output equals the input exactly when the input is valid |
| Values.DigitsRoundTrip | pisag/models/system_config.py:35-36 | reading back the decimal digits of n gives n |
| Values.IntTextRoundTrip | pisag/models/system_config.py:25-26 | `int(str(n)) == n` for every integer |
| Values.LowerIdempotent | pisag/config.py:137 | lowercasing twice is lowercasing once |
| Queue.TransmissionQueue.constructor | pisag/services/transmission_queue.py:15-18 | a new queue is empty and not paused |
| Queue.TransmissionQueue.Enqueue | pisag/services/transmission_queue.py:21-36 | a malformed request raises the check's error and leaves the queue unchanged; a well-formed one returns `True` and is appended at the tail |
| Queue.TransmissionQueue.Dequeue | pisag/services/transmission_queue.py:38-45 | nothing is returned or removed while paused or empty; otherwise the oldest request is returned and removed |
| Queue.TransmissionQueue.IsEmpty | pisag/services/transmission_queue.py:47-51 | `is_empty()` holds exactly when `size() == 0` |
| Queue.TransmissionQueue.Pause | pisag/services/transmission_queue.py:53-56 | the flag is set and the contents are unchanged |
| Queue.TransmissionQueue.Resume | pisag/services/transmission_queue.py:58-61 | the flag is cleared and the contents are unchanged |
| Queue.CheckRequestAccepts | pisag/services/transmission_queue.py:21-29 | a request is accepted exactly when it has all six keys and its recipients are a list of dicts with `ric` and `pager_id`; every rejection of a dict is a `ValueError` |
| Queue.FifoOrder | pisag/services/transmission_queue.py:21-45 | two accepted requests come out in order, and a rejected one leaves no trace |
| Queue.PauseKeepsHead | pisag/services/transmission_queue.py:38-61 | a pause withholds the head, and after resuming the same request comes out |
| MessageService.NormalizedRics | pisag/services/message_service.py:103-109 | normalisation yields no more RICs than there were recipients |
| MessageService.NormalizeRecipients | pisag/services/message_service.py:103-112 | the loop yields the RICs in order, or "At least one recipient is required" when there are none |
| MessageService.NormalizeStrings | pisag/services/message_service.py:105-107 | plain RIC strings pass through unchanged |
| MessageService.NormalizedEmpty | pisag/services/message_service.py:105-111 | no RIC is found exactly when no recipient is a string or a dict with `ric` |
| MessageService.ValidateInputsPass | pisag/services/message_service.py:92-101 | the inputs pass exactly when the type is known, every RIC has seven digits, and the text has an allowed length and allowed characters |
| MessageService.TypeCheckedFirst | pisag/services/message_service.py:93-94 | an unknown type is reported before anything else |
| MessageService.RecipientRecords | pisag/services/message_service.py:50-59 | there is one record per RIC |
| MessageService.RequestWellFormed | pisag/services/message_service.py:50-71 | every request the service builds has the shape the queue demands |
| MessageService.SendMessage | pisag/services/message_service.py:26-73 | the result is `SendOutcome`; an accepted message's request is appended to the queue, and a rejected send leaves the queue unchanged |
| MessageService.SentTextUnchanged | pisag/services/message_service.py:36-38 | the stored and sent text is the caller's text |
| MessageService.SendShape | pisag/services/message_service.py:26-73 | every error is a `ValueError`, and an accepted message is `queued` with at least one RIC |
| MessageService.StoredRecipients | pisag/services/message_service.py:82 | there is one recipient per stored RIC |
| MessageService.ResendMessage | pisag/services/message_service.py:78-90 | an unknown message gives "Message not found" and leaves the queue unchanged; otherwise the stored fields are sent again |
| MessageService.ResendReproduces | pisag/services/message_service.py:78-90 | resending an accepted message is accepted again and reproduces it under the new id |
| Config.DeepUpdate | pisag/config.py:119-124 | the merged keys are the old keys together with the update's keys |
| Config.DeepUpdateKeeps | pisag/config.py:119-124 | keys the updates do not mention keep their values |
| Config.DeepUpdateReplaces | pisag/config.py:121-124 | an updated key is replaced unless both sides are dicts, which are merged |
| Config.DeepUpdateEmpty | pisag/config.py:119-124 | empty updates change nothing |
| Config.DeepUpdateSelf | pisag/config.py:119-124 | merging a tree into itself changes nothing |
| Config.DeepUpdateIdempotent | pisag/config.py:119-124 | applying the same updates twice is applying them once |
| Config.Split | pisag/config.py:128 | a split always has at least one piece |
| Config.SplitJoin | pisag/config.py:128 | joining the pieces with the separator gives back the string |
| Config.SplitPieces | pisag/config.py:128 | no piece contains the separator |
| Config.SplitWhole | pisag/config.py:128 | a key without a dot splits into itself |
| Config.SplitPair | pisag/config.py:128 | `"a.b"` splits into `a` and `b` |
| Config.SetPathSucceeds | pisag/config.py:129-132 | the walk succeeds exactly when every step meets a dict or a missing key |
| Config.SetPathEmpty | pisag/config.py:129-132 | walking an empty tree creates the whole chain of dicts |
| Config.SetPathFresh | pisag/config.py:130-131 | missing intermediates become fresh dicts holding the rest of the path |
| Config.SetPathLookup | pisag/config.py:129-132 | after the override, walking the path yields the value |
| Config.SetPathOthers | pisag/config.py:129-132 | only the first key of the path changes, and it is added if missing |
| Config.SetPathSiblings | pisag/config.py:129-132 | entries beside the overridden path are kept at every depth |
| Config.ApplyOverrideLookup | pisag/config.py:127-133 | `_apply_override` stores the value at its dotted path |
| Config.DeserializeCaseInsensitive | pisag/config.py:137 | the type name is case-insensitive |
| Config.DeserializeRaw | pisag/config.py:136-146 | a missing, empty or unknown type name gives back the raw string |
| Config.DeserializeBool | pisag/config.py:142-143 | a `bool` setting is true exactly for "1", "true" and "yes", in any case |
| Config.DeserializeInt | pisag/config.py:138-139 | an `int` setting stored as `str(n)` decodes to n |
| Config.RequireKeysPasses | pisag/config.py:149-158 | over a tree of dict sections, the check passes exactly when all four keys are present |
| Config.RequireFromErrors | pisag/config.py:156-158 | every failure is a `ConfigurationError` naming a missing key |
| Config.FrequencyReportedFirst | pisag/config.py:150-158 | a missing frequency is reported before any other missing key |
| Config.ValidateAccepts | pisag/config.py:161-176 | validation passes exactly when frequency ∈ [1, 6000], power ∈ [-10, 15], sample rate ∈ [2, 30] and baud ∈ {512, 1200, 2400} |
| Config.DefaultConfigValid | pisag/config.py:11-50 | the default configuration has every required key and passes validation |
| Config.DefaultSettings | pisag/config.py:14-26 | the defaults are frequency 929.6125, power 10, sample rate 12.0 and baud 1200 |
| SystemConfig.Record.SetValue | pisag/models/system_config.py:33-42 | the type name is always set; the stored text is the type's encoding, or the old text when `int()`/`float()` raises |
| SystemConfig.Table.SetConfig | pisag/models/system_config.py:48-63 | the record under the dotted key is updated or created holding `set_value`'s encoding; when `int()` or `float()` raises, a new record keeps `str(value)` and an existing one its old text; exactly one record has the key and every other record is unchanged |
| SystemConfig.BoolRoundTrip | pisag/models/system_config.py:24-42 | a bool is stored as "1" or "0" and reads back as its truth value |
| SystemConfig.IntRoundTrip | pisag/models/system_config.py:24-42 | an int is stored in decimal and reads back as the same int |
| SystemConfig.FloatRoundTrip | pisag/models/system_config.py:24-42 | a float reads back as itself whenever `float(str(x)) == x` |
| SystemConfig.OtherRoundTrip | pisag/models/system_config.py:24-42 | other types store `str(raw)` and read it back unchanged |
| SystemConfig.JsonStaysText | pisag/models/system_config.py:24-31 | a `json` setting comes back as raw text |
| SystemConfig.NamespacedKey | pisag/models/system_config.py:57 | a plain key in a namespace is stored as `namespace.key`, which splits back into the two |
| SystemConfig.PlainKey | pisag/models/system_config.py:57 | a dotted key, or a key without a namespace, is stored as given |
| SystemConfig.ReadersAgree | pisag/models/system_config.py:24-31 | for `int`, `float`, `bool` and `str` the table reader agrees with the loader's decoder |
| SystemConfig.ReadersDiffer | pisag/models/system_config.py:24-31 | for the type name "INT" the loader parses `7` and the table reader returns the text "7" |
| SystemConfig.BoolSettingLands | pisag/models/system_config.py:33-63 | a namespaced bool setting, read back by the loader, lands at `[namespace][key]` with its truth value |
| Status.SystemStatus.constructor | pisag/services/system_status.py:10-14 | starts disconnected, with no transmission and an error count of zero |
| Status.SystemStatus.Reset | pisag/services/system_status.py:17-23 | clears the flag, the last transmission and the error count |
| Status.SystemStatus.SetHackrfStatus | pisag/services/system_status.py:25-28 | the flag becomes `bool(connected)` and nothing else changes |
| Status.SystemStatus.RecordTransmission | pisag/services/system_status.py:35-38 | only the last transmission time changes |
| Status.SystemStatus.IncrementErrorCount | pisag/services/system_status.py:40-43 | the count rises by one and nothing else changes |
| Status.SystemStatus.GetStatusDict | pisag/services/system_status.py:50-59 | the report shows the current flag, count, last transmission and uptime, and the given queue size |
| Status.StatusRoundTrip | pisag/services/system_status.py:26-59 | a set flag reads back as `bool(connected)` and appears in the report |
| Status.CountAndReset | pisag/services/system_status.py:17-43 | errors count one at a time, and a reset clears them together with the flag |
| Monitor.DeviceMonitor.constructor | pisag/services/device_monitor.py:21-23 | starts not running and not connected |
| Monitor.DeviceMonitor.Start | pisag/services/device_monitor.py:25-31 | a no-op when running; otherwise running and one more thread |
| Monitor.DeviceMonitor.Stop | pisag/services/device_monitor.py:33-37 | clears the running flag |
| Monitor.DeviceMonitor.PauseQueue | pisag/services/device_monitor.py:87-92 | pauses the queue only when there is one |
| Monitor.DeviceMonitor.ResumeQueue | pisag/services/device_monitor.py:94-99 | resumes the queue only when there is one |
| Monitor.DeviceMonitor.AttemptReconnect | pisag/services/device_monitor.py:67-85 | the effects are `ReconnectTrace`: nothing unless `connect()` returns true; then the status is set and the queue resumed as the trace says |
| Monitor.DeviceMonitor.MonitorStep | pisag/services/device_monitor.py:39-61 | the effects are `StepTrace`, and afterwards `_last_connected` is the probe's answer or the status flag |
| Monitor.FinalAfterFallingEdge | pisag/services/device_monitor.py:48-53 | the falling edge clears the status and pauses the queue |
| Monitor.FinalAfterRisingEdge | pisag/services/device_monitor.py:55-60 | the rising edge sets the status and resumes the queue |
| Monitor.ReconnectEffects | pisag/services/device_monitor.py:69-83 | a reconnection that did anything leaves the status set, and resumes exactly when it reached the emit |
| Monitor.ProbeErrorIsDisconnected | pisag/services/device_monitor.py:42-46 | a probe that raises behaves exactly like one that answers "disconnected" |
| Monitor.ReconnectNeverPauses | pisag/services/device_monitor.py:67-85 | a reconnection never pauses the queue |
| Monitor.PausesOnFallingEdge | pisag/services/device_monitor.py:48-53 | the queue is paused exactly on a connected-to-disconnected edge with a queue present |
| Monitor.FailedReconnectIsSilent | pisag/services/device_monitor.py:69 | a failed `connect()` does nothing |
| Monitor.ReconnectIgnoresConfigure | pisag/services/device_monitor.py:77-80 | whether `configure` raises makes no difference |
| Monitor.ReconnectRestores | pisag/services/device_monitor.py:54-85 | a disconnected iteration whose reconnection succeeds with readable settings ends with the status set and the queue running |
| Monitor.StatusWithoutResume | pisag/services/device_monitor.py:72-83 | a `pocsag` section that is not a dict sets the status but never resumes the queue |
| Monitor.ConnectedIterations | pisag/services/device_monitor.py:55-60 | connected-to-connected does nothing; disconnected-to-connected sets the status and resumes |
| Worker.TransmissionWorker.constructor | pisag/services/transmission_worker.py:28-33 | starts not running |
| Worker.TransmissionWorker.Start | pisag/services/transmission_worker.py:42-61 | a no-op when running; otherwise one more thread, and the status records whether `connect()` returned true; a failed connection is emitted as disconnected |
| Worker.TransmissionWorker.Stop | pisag/services/transmission_worker.py:63-73 | clears the running flag and disconnects the radio |
| Worker.TransmissionWorker.HandleErrorStep | pisag/services/transmission_worker.py:134-156 | the trace is `HandleError`; only a `TransmissionError` clears the status and pauses the queue; the error count rises by one |
| Worker.TransmissionWorker.RunRecipients | pisag/services/transmission_worker.py:107-118 | the recipient loop computes the specification `Loop`, stopping at the first exception |
| Worker.TransmissionWorker.RunBody | pisag/services/transmission_worker.py:106-132 | the trace is `Body`, and the status, error count, pause flag and last transmission change exactly as its events say |
| Worker.TransmissionWorker.ProcessRequest | pisag/services/transmission_worker.py:87-132 | the result is `ProcessTrace`; a failure before the `try` changes nothing; otherwise the state changes as the trace says |
| Worker.TransmissionWorker.WorkerStep | pisag/services/transmission_worker.py:76-85 | an empty or paused dequeue does nothing; otherwise the head is processed, removed and, if it escapes, counted as an error |
| Worker.LoopStopped | pisag/services/transmission_worker.py:107-118 | after the first exception, later recipients add nothing |
| Worker.LoopCompletes | pisag/services/transmission_worker.py:107-118 | the loop completes exactly when every recipient is a dict whose encode, configure and transmit all return |
| Worker.InOrder | pisag/services/transmission_worker.py:107-118 | with every call succeeding, the recipients are served in list order |
| Worker.AllServedAt | pisag/services/transmission_worker.py:108-118 | events `6i .. 6i + 5` are recipient `i`'s encode, `transmitting` status and stage, emit, configure and transmit |
| Worker.AllPass | pisag/services/transmission_worker.py:106-124 | when every call succeeds, the body serves every recipient and ends with the success tail |
| Worker.FirstFailure | pisag/services/transmission_worker.py:107-132 | the first failing recipient ends the loop: earlier recipients were served and its own events stop at the call that raised |
| Worker.StatusesValid | pisag/services/transmission_worker.py:87-156 | every status written is in `VALID_STATUS` and every log stage in `VALID_STAGES` |
| Worker.EncodingFirst | pisag/services/transmission_worker.py:101-104 | the `encoding` status and stage come first, before any encoder call |
| Worker.SuccessIffAllServed | pisag/services/transmission_worker.py:120-124 | `record_transmission` happens exactly when every recipient was served |
| Worker.FailureCountedOnce | pisag/services/transmission_worker.py:120-156 | success happens exactly when nothing was raised; a failure is counted exactly once, as the last event, and a success not at all |
| Worker.OnlyTransmissionErrorPauses | pisag/services/transmission_worker.py:136-147 | the status is cleared and the queue paused exactly when the exception is a `TransmissionError` |
| EndToEnd.DefaultsNumeric | pisag/config.py:14-21 | the default `system` section gives the worker numeric SDR settings |
| EndToEnd.ServiceRequestQueued | pisag/services/message_service.py:63-71 | the queue accepts every request the service builds |
| EndToEnd.ServiceRequestRead | pisag/services/transmission_worker.py:88-101 | the worker reads such a request whole: frequency, baud, text and recipient records arrive unchanged |
| EndToEnd.ServiceRequestServed | pisag/services/transmission_worker.py:107-124 | with every call succeeding, the i-th encoder call is for the service's i-th RIC and the request ends in `success` |
| EndToEnd.AcceptedRicWellFormed | pisag/utils/validation.py:9-10 | every RIC the service accepts has a well-formed shape for the encoder |
| EndToEnd.RicRangeGap | pisag/plugins/encoders/pure_python.py:115-117 | "9999999" passes the service's RIC check and fails the encoder's range check |

## Left out

- Floating-point sample values: the phase accumulation and `np.exp` of the modulator are not modelled; each sample is the integer tone of its bit.
- Modulation.SamplesPerBit: the sample rate is a whole number of hertz, so `int(sample_rate_hz / baud)` is integer division; fractional-hertz rates are not modelled.
- Floats are exact reals: rounding in `float()` and the text of `str(float)` are parameters.
- Threads, locks, blocking `get` with a timeout, `sleep` and `join`: each operation is one sequential step; `_worker_loop` and `_monitor_loop` are modelled one iteration at a time.
- The database: message rows, recipient rows and log entries are trace events, the new message's id and the pager of a RIC are parameters, and the `system_config` table is a map of record objects. `_update_message_status` for a missing message is not modelled.
- UI emitters and logging are trace events or are dropped; log texts, timings and `exc.__class__.__name__` in the log details are not modelled.
- `load_json_config`, `load_database_overrides`, `get_config`, `reload_config` and the cache: file and database I/O.
- Config.DeepUpdate and Config.ApplyOverride are modelled on values: the in-place mutation of `target` and `base`, their aliasing, and dicts partly created by a walk that later fails are not modelled.
- Config.DeserializeValue: `float` and `json.loads` are parameters.
- Plugin loading and the encoder and radio classes: the worker's encoder and radio are the per-recipient outcomes `attempts(i)`.
- Worker.RecipientItems: iterating a dict visits its keys, which are all strings, so one representative key stands for them; only whether the dict is empty matters.
- `str.isdigit`, `\d` and `str.lower` are ASCII-only here.
- `int()` of a string does not accept surrounding whitespace or digit-group underscores.
- The text of Python's own error messages follows CPython 3.11 and is kept only where the model distinguishes errors. A value shown in a message is quoted in single quotes, without the escaping `repr` applies to quotes and control characters.
- `isinstance` on subclasses: values are JSON-like, with no user-defined types.
- The `String(100)` and `String(20)` column limits of the `system_config` table.
- The 80-character warning of the encoder's validation (a log line only).
- A request that is not a dict is reported by the queue with the `AttributeError` that `request.keys()` raises.
- `SystemStatus` is one shared object, not a class with class-level fields.
