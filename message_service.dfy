/**
 * The message service: normalises recipients, validates a message, stores it and hands a
 * transmission request to the queue. The database is a parameter: the new message's id and
 * the pager registered for each RIC are given; the stored message is returned.
 */
module MessageService {
  import opened Wrappers
  import opened Values
  import opened Validation
  import opened Queue

  const NoRecipientsError: Exception := ValueError("At least one recipient is required")
  const MessageTypeError: Exception := ValueError("message_type must be 'alphanumeric' or 'numeric'")
  const RicFormatError: Exception := ValueError("RIC must be a 7-digit numeric string")
  const LengthError: Exception := ValueError("Message exceeds allowed length")
  const ContentError: Exception := ValueError("Message contains invalid characters for its type")
  const NotFoundError: Exception := ValueError("Message not found")

  /** A stored message row with the RIC of each of its recipient rows. */
  datatype Message = Message(
    id: int,
    text: string,
    messageType: string,
    status: string,
    frequency: real,
    baudRate: int,
    rics: seq<string>)

  /** A recipient the service can use: a RIC string, or a dict that has a `ric`. */
  predicate Usable(r: Value)
  {
    r.Str? || (r.Dict? && "ric" in r.fields)
  }

  /** The RIC strings `_normalize_recipients` collects, in order: strings are kept, a dict's `ric` is rendered with `str`, anything else is skipped. */
  function NormalizedRics(recipients: seq<Value>, render: Value -> string): (rics: seq<string>)
    ensures |rics| <= |recipients|
  {
    if |recipients| == 0 then []
    else
      var init := NormalizedRics(recipients[..|recipients| - 1], render);
      var r := recipients[|recipients| - 1];
      if r.Str? then init + [r.s]
      else if r.Dict? && "ric" in r.fields then init + [Text(r.fields["ric"], render)]
      else init
  }

  /** `_normalize_recipients`: the loop that collects the RICs, failing when none was found. */
  method NormalizeRecipients(recipients: seq<Value>, render: Value -> string) returns (r: Result<seq<string>>)
    ensures NormalizedRics(recipients, render) == [] ==> r == Err(NoRecipientsError)
    ensures NormalizedRics(recipients, render) != [] ==> r == Ok(NormalizedRics(recipients, render))
  {
    var normalized: seq<string> := [];
    for i := 0 to |recipients|
      invariant normalized == NormalizedRics(recipients[..i], render)
    {
      assert recipients[..i + 1][..i] == recipients[..i];
      var rec := recipients[i];
      if rec.Str? {
        normalized := normalized + [rec.s];
      } else if rec.Dict? && "ric" in rec.fields {
        normalized := normalized + [Text(rec.fields["ric"], render)];
      }
    }
    assert recipients[..|recipients|] == recipients;
    if normalized == [] {
      return Err(NoRecipientsError);
    }
    r := Ok(normalized);
  }

  /** `_validate_inputs`: the message type, then every RIC, then the length, then the content. */
  function ValidateInputs(rics: seq<string>, text: string, messageType: string): Outcome
  {
    if messageType != "alphanumeric" && messageType != "numeric" then Fail(MessageTypeError)
    else if exists i :: 0 <= i < |rics| && !ValidateRicFormat(rics[i]) then Fail(RicFormatError)
    else if !ValidateMessageLength(text, messageType) then Fail(LengthError)
    else if !ValidateMessageContent(text, messageType) then Fail(ContentError)
    else Pass
  }

  /** The queue's record of one recipient: its RIC and its pager's id, or `None` for an unknown RIC. */
  function RecipientRecord(ric: string, pagerOf: string -> Option<nat>): Value
  {
    Dict(map["ric" := Str(ric), "pager_id" := match pagerOf(ric) case Some(id) => Int(id) case None => Null])
  }

  function RecipientRecords(rics: seq<string>, pagerOf: string -> Option<nat>): (records: seq<Value>)
    ensures |records| == |rics|
  {
    seq(|rics|, i requires 0 <= i < |rics| => RecipientRecord(rics[i], pagerOf))
  }

  /** The transmission request `send_message` enqueues. */
  function Request(message: Message, pagerOf: string -> Option<nat>): Value
  {
    Dict(map[
      "message_id" := Int(message.id),
      "recipients" := List(RecipientRecords(message.rics, pagerOf)),
      "message_text" := Str(message.text),
      "message_type" := Str(message.messageType),
      "frequency" := Float(message.frequency),
      "baud_rate" := Int(message.baudRate)])
  }

  /** What `send_message` stores, or the error it raises. */
  function SendOutcome(recipients: seq<Value>, text: string, messageType: string, frequency: real, baudRate: int,
                       id: int, render: Value -> string): Result<Message>
  {
    var rics := NormalizedRics(recipients, render);
    if rics == [] then Err(NoRecipientsError)
    else
      match ValidateInputs(rics, text, messageType)
      case Fail(e) => Err(e)
      case Pass => Ok(Message(id, SanitizeMessageText(text, messageType), messageType, "queued", frequency, baudRate, rics))
  }

  /**
   * `send_message`: normalise and validate, store the message with its sanitised text and
   * status `queued`, build one recipient record per RIC and enqueue the request. A rejected
   * message leaves the queue as it was.
   */
  method SendMessage(queue: TransmissionQueue, recipients: seq<Value>, text: string, messageType: string,
                     frequency: real, baudRate: int, id: int, render: Value -> string, pagerOf: string -> Option<nat>)
    returns (r: Result<Message>)
    modifies queue
    ensures r == SendOutcome(recipients, text, messageType, frequency, baudRate, id, render)
    ensures r.Ok? ==> queue.items == old(queue.items) + [Request(r.value, pagerOf)]
    ensures r.Err? ==> queue.items == old(queue.items)
    ensures queue.paused == old(queue.paused)
  {
    var normalized := NormalizeRecipients(recipients, render);
    if normalized.Err? {
      return Err(normalized.error);
    }
    var rics := normalized.value;
    var check := ValidateInputs(rics, text, messageType);
    if check.Fail? {
      return Err(check.error);
    }
    var sanitized := SanitizeMessageText(text, messageType);
    var message := Message(id, sanitized, messageType, "queued", frequency, baudRate, rics);
    var records: seq<Value> := [];
    for i := 0 to |rics|
      invariant records == RecipientRecords(rics[..i], pagerOf)
    {
      records := records + [RecipientRecord(rics[i], pagerOf)];
    }
    assert rics[..|rics|] == rics;
    var request := Dict(map[
      "message_id" := Int(id),
      "recipients" := List(records),
      "message_text" := Str(sanitized),
      "message_type" := Str(messageType),
      "frequency" := Float(frequency),
      "baud_rate" := Int(baudRate)]);
    assert request == Request(message, pagerOf);
    RequestWellFormed(message, pagerOf);
    CheckRequestAccepts(request);
    var _ := queue.Enqueue(request);
    r := Ok(message);
  }

  /** The input `resend_message` passes to `send_message`: the stored RICs as strings. */
  function StoredRecipients(rics: seq<string>): (recipients: seq<Value>)
    ensures |recipients| == |rics|
  {
    seq(|rics|, i requires 0 <= i < |rics| => Str(rics[i]))
  }

  /** `resend_message`: an unknown message is an error; otherwise the stored message is sent again under a new id. */
  method ResendMessage(queue: TransmissionQueue, original: Option<Message>, id: int, render: Value -> string,
                       pagerOf: string -> Option<nat>)
    returns (r: Result<Message>)
    modifies queue
    ensures original.None? ==> r == Err(NotFoundError) && queue.items == old(queue.items)
    ensures original.Some? ==> r == SendOutcome(StoredRecipients(original.value.rics), original.value.text,
                                                original.value.messageType, original.value.frequency,
                                                original.value.baudRate, id, render)
    ensures r.Ok? ==> queue.items == old(queue.items) + [Request(r.value, pagerOf)]
    ensures r.Err? ==> queue.items == old(queue.items)
    ensures queue.paused == old(queue.paused)
  {
    if original.None? {
      return Err(NotFoundError);
    }
    var m := original.value;
    r := SendMessage(queue, StoredRecipients(m.rics), m.text, m.messageType, m.frequency, m.baudRate, id, render, pagerOf);
  }

  // ---------------------------------------------------------------------------
  // Properties

  /** Plain RIC strings pass through normalisation unchanged. */
  lemma {:induction false} NormalizeStrings(rics: seq<string>, render: Value -> string)
    ensures NormalizedRics(StoredRecipients(rics), render) == rics
    decreases |rics|
  {
    if |rics| > 0 {
      var init := rics[..|rics| - 1];
      assert StoredRecipients(rics)[..|rics| - 1] == StoredRecipients(init);
      NormalizeStrings(init, render);
      assert init + [rics[|rics| - 1]] == rics;
    }
  }

  /** Normalisation finds no RIC exactly when no recipient is a string or a dict with a `ric`. */
  lemma {:induction false} NormalizedEmpty(recipients: seq<Value>, render: Value -> string)
    ensures NormalizedRics(recipients, render) == [] <==> forall i :: 0 <= i < |recipients| ==> !Usable(recipients[i])
    decreases |recipients|
  {
    if |recipients| > 0 {
      var init := recipients[..|recipients| - 1];
      NormalizedEmpty(init, render);
      assert forall i :: 0 <= i < |init| ==> init[i] == recipients[i];
    }
  }

  /** The inputs pass exactly when the type is known, every RIC has seven digits and the text fits and uses allowed characters. */
  lemma ValidateInputsPass(rics: seq<string>, text: string, messageType: string)
    ensures ValidateInputs(rics, text, messageType) == Pass <==>
      && messageType in {"alphanumeric", "numeric"}
      && (forall i :: 0 <= i < |rics| ==> ValidateRicFormat(rics[i]))
      && ValidateMessageLength(text, messageType)
      && ValidateMessageContent(text, messageType)
  {
  }

  /** An unknown message type is reported before anything else about the message. */
  lemma TypeCheckedFirst(rics: seq<string>, text: string, messageType: string)
    requires messageType != "alphanumeric" && messageType != "numeric"
    ensures ValidateInputs(rics, text, messageType) == Fail(MessageTypeError)
  {
  }

  /** Every request the service builds has the shape the queue demands, so `enqueue` never rejects it. */
  lemma RequestWellFormed(message: Message, pagerOf: string -> Option<nat>)
    ensures WellFormedRequest(Request(message, pagerOf))
  {
    var records := RecipientRecords(message.rics, pagerOf);
    forall i | 0 <= i < |records|
      ensures Queue.RecipientRecord(records[i])
    {
      assert records[i] == RecipientRecord(message.rics[i], pagerOf);
    }
  }

  /** Sanitising never changes an accepted text: the stored text is the text given. */
  lemma SentTextUnchanged(recipients: seq<Value>, text: string, messageType: string, frequency: real, baudRate: int,
                          id: int, render: Value -> string)
    requires SendOutcome(recipients, text, messageType, frequency, baudRate, id, render).Ok?
    ensures SendOutcome(recipients, text, messageType, frequency, baudRate, id, render).value.text == text
  {
    SanitizeKeepsValid(text, messageType);
  }

  /** Every error `send_message` raises is a `ValueError`, and an accepted message is stored as `queued` with at least one RIC. */
  lemma SendShape(recipients: seq<Value>, text: string, messageType: string, frequency: real, baudRate: int,
                  id: int, render: Value -> string)
    ensures var r := SendOutcome(recipients, text, messageType, frequency, baudRate, id, render);
      (r.Err? ==> r.error.ValueError?) && (r.Ok? ==> r.value.status == "queued" && r.value.rics != [])
  {
  }

  /** Resending a message the service accepted is accepted again and reproduces it under the new id. */
  lemma ResendReproduces(recipients: seq<Value>, text: string, messageType: string, frequency: real, baudRate: int,
                         id: int, newId: int, render: Value -> string)
    requires SendOutcome(recipients, text, messageType, frequency, baudRate, id, render).Ok?
    ensures var m := SendOutcome(recipients, text, messageType, frequency, baudRate, id, render).value;
      SendOutcome(StoredRecipients(m.rics), m.text, m.messageType, m.frequency, m.baudRate, newId, render) == Ok(m.(id := newId))
  {
    var m := SendOutcome(recipients, text, messageType, frequency, baudRate, id, render).value;
    SanitizeKeepsValid(text, messageType);
    NormalizeStrings(m.rics, render);
  }
}
