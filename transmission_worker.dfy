/**
 * The transmission worker: it takes one request off the queue and, for each recipient in
 * order, encodes, configures the SDR and transmits, recording statuses and log stages as it
 * goes; the first failure ends the request and is handled once. The encoder's and the SDR's
 * answers for the i-th recipient are `attempts(i)`; the database writes and UI emits are
 * events of the trace.
 */
module Worker {
  import opened Wrappers
  import opened Values
  import Config
  import opened Queue
  import opened Status

  /** `Message.VALID_STATUS` and `TransmissionLog.VALID_STAGES`. */
  const ValidStatus: set<string> := {"queued", "encoding", "transmitting", "success", "failed"}
  const ValidStages: set<string> := {"queued", "encoding", "transmitting", "complete", "error"}

  /** What `encode`, `configure` and `transmit` do for one recipient: return normally or raise. */
  datatype Attempt = Attempt(encode: Outcome, configure: Outcome, transmit: Outcome)

  datatype WorkerEvent =
    | StatusWritten(status: string, error: Option<string>)
    | LogWritten(stage: string)
    | EncodingStartedEmitted
    | EncodeCalled(ric: Value)
    | TransmittingEmitted(ric: Value)
    | ConfigureCalled(frequency: real, sampleRate: real, gain: real, power: real)
    | TransmitCalled(ric: Value)
    | CompleteEmitted
    | TransmissionRecorded
    | HackrfCleared
    | DisconnectCalled
    | QueuePauseRequested
    | StatusUpdateEmitted(connected: bool)
    | FailedEmitted(reason: string)
    | ErrorCounted

  /** The fields `_process_request` reads before it starts, and the SDR settings from the configuration. */
  datatype Fields = Fields(messageId: Value, recipients: Value, text: Value, messageType: Value,
                           frequency: real, baudRate: int, sampleRate: real, gain: real, power: real)

  /** The progress of the recipient loop: the events so far and the exception that stopped it, if any. */
  datatype Progress = Progress(events: seq<WorkerEvent>, error: Option<Exception>)

  /** `len(v)`: strings, lists and dicts have a length. */
  function Len(v: Value): Result<nat>
  {
    match v
    case Str(s) => Ok(|s|)
    case List(items) => Ok(|items|)
    case Dict(fields) => Ok(|fields|)
    case _ => Err(TypeError("object of type '" + TypeName(v) + "' has no len()"))
  }

  /** The SDR settings of the `system` section, with the defaults `_process_request` uses. */
  datatype Sdr = Sdr(sampleRate: real, gain: real, power: real)

  function SdrSettings(config: Config.Tree, parseFloat: string -> Result<real>): Result<Sdr>
  {
    var system :- Config.Get(Dict(config), "system", Dict(map[]));
    var sampleRateValue :- Config.Get(system, "sample_rate", Float(2.0));
    var sampleRate :- Config.FloatOf(sampleRateValue, parseFloat);
    var gainValue :- Config.Get(system, "if_gain", Int(40));
    var gain :- Config.FloatOf(gainValue, parseFloat);
    var powerValue :- Config.Get(system, "transmit_power", Int(10));
    var power :- Config.FloatOf(powerValue, parseFloat);
    Ok(Sdr(sampleRate, gain, power))
  }

  /** Everything `_process_request` evaluates before its `try`; an exception here escapes to the loop. */
  function RequestFields(request: Value, config: Config.Tree, parseFloat: string -> Result<real>): Result<Fields>
  {
    var id :- Config.Index(request, "message_id");
    var recipients :- Config.Index(request, "recipients");
    var text :- Config.Index(request, "message_text");
    var messageType :- Config.Index(request, "message_type");
    var frequencyValue :- Config.Index(request, "frequency");
    var frequency :- Config.FloatOf(frequencyValue, parseFloat);
    var baudValue :- Config.Index(request, "baud_rate");
    var baud :- IntOf(baudValue);
    var sdr :- SdrSettings(config, parseFloat);
    var _ :- Len(text);
    Ok(Fields(id, recipients, text, messageType, frequency, baud, sdr.sampleRate, sdr.gain, sdr.power))
  }

  /**
   * The items `for recipient in recipients` visits. A string visits its one-character
   * strings; a dict visits its keys, which are strings, so only whether it is empty matters
   * and one key stands for all of them; other scalars are not iterable.
   */
  function RecipientItems(recipients: Value): Result<seq<Value>>
  {
    match recipients
    case List(items) => Ok(items)
    case Str(s) => Ok(seq(|s|, i requires 0 <= i < |s| => Str([s[i]])))
    case Dict(fields) => Ok(if |fields| == 0 then [] else [Str("")])
    case _ => Err(TypeError("'" + TypeName(recipients) + "' object is not iterable"))
  }

  const Header: seq<WorkerEvent> := [StatusWritten("encoding", None), LogWritten("encoding"), EncodingStartedEmitted]
  const SuccessTail: seq<WorkerEvent> := [StatusWritten("success", None), LogWritten("complete"), CompleteEmitted, TransmissionRecorded]

  /** One pass of the recipient loop: `recipient.get("ric")`, encode, status and log, emit, configure, transmit. */
  function RecipientStep(recipient: Value, attempt: Attempt, f: Fields): Progress
  {
    if !recipient.Dict? then Progress([], Some(AttributeError("'" + TypeName(recipient) + "' object has no attribute 'get'")))
    else
      var ric := if "ric" in recipient.fields then recipient.fields["ric"] else Null;
      var encoded := [EncodeCalled(ric)];
      if attempt.encode.Fail? then Progress(encoded, Some(attempt.encode.error))
      else
        var configured := encoded + [StatusWritten("transmitting", None), LogWritten("transmitting"), TransmittingEmitted(ric),
                                     ConfigureCalled(f.frequency, f.sampleRate, f.gain, f.power)];
        if attempt.configure.Fail? then Progress(configured, Some(attempt.configure.error))
        else
          var transmitted := configured + [TransmitCalled(ric)];
          if attempt.transmit.Fail? then Progress(transmitted, Some(attempt.transmit.error))
          else Progress(transmitted, None)
  }

  /** The recipient loop over `rs`, stopping at the first exception. */
  function Loop(rs: seq<Value>, attempts: nat -> Attempt, f: Fields): Progress
  {
    if |rs| == 0 then Progress([], None)
    else
      var prev := Loop(rs[..|rs| - 1], attempts, f);
      if prev.error.Some? then prev
      else
        var step := RecipientStep(rs[|rs| - 1], attempts(|rs| - 1), f);
        Progress(prev.events + step.events, step.error)
  }

  /** `_handle_error`: a `TransmissionError` clears the status, disconnects and pauses; every error is then recorded once. */
  function HandleError(e: Exception): seq<WorkerEvent>
  {
    (if e.TransmissionError? then Disconnection else []) + FailedTail(e.Text())
  }

  const Disconnection: seq<WorkerEvent> := [HackrfCleared, DisconnectCalled, QueuePauseRequested, StatusUpdateEmitted(false)]

  /** The `failed` status (with the message when it is not empty), the `error` stage, the emit and the count. */
  function FailedTail(message: string): seq<WorkerEvent>
  {
    [StatusWritten("failed", if message != "" then Some(message) else None), LogWritten("error"), FailedEmitted(message), ErrorCounted]
  }

  /** The events of the `try` block and its handlers. */
  function Body(f: Fields, attempts: nat -> Attempt): seq<WorkerEvent>
  {
    match RecipientItems(f.recipients)
    case Err(e) => HandleError(e)
    case Ok(rs) =>
      var p := Loop(rs, attempts, f);
      p.events + (if p.error.None? then SuccessTail else HandleError(p.error.value))
  }

  /** The exception that reached the body's handler, if any. */
  function Raised(f: Fields, attempts: nat -> Attempt): Option<Exception>
  {
    match RecipientItems(f.recipients)
    case Err(e) => Some(e)
    case Ok(rs) => Loop(rs, attempts, f).error
  }

  /** `_process_request`: the exception raised before the `try`, or the trace of the whole request. */
  function ProcessTrace(request: Value, config: Config.Tree, attempts: nat -> Attempt, parseFloat: string -> Result<real>)
    : Result<seq<WorkerEvent>>
  {
    match RequestFields(request, config, parseFloat)
    case Err(e) => Err(e)
    case Ok(f) => Ok(Header + Body(f, attempts))
  }

  /** One pass of `_worker_loop`: nothing for an empty dequeue; an exception escaping the request is counted. */
  function StepTrace(request: Option<Value>, config: Config.Tree, attempts: nat -> Attempt, parseFloat: string -> Result<real>)
    : seq<WorkerEvent>
  {
    match request
    case None => []
    case Some(r) =>
      match ProcessTrace(r, config, attempts, parseFloat)
      case Err(_) => [ErrorCounted]
      case Ok(t) => t
  }

  class TransmissionWorker {
    const queue: TransmissionQueue
    const status: SystemStatus
    const config: Config.Tree
    var running: bool
    /** How many worker threads `start` has launched. */
    var threadStarts: nat

    constructor(queue: TransmissionQueue, status: SystemStatus, config: Config.Tree)
      ensures this.queue == queue && this.status == status && this.config == config
      ensures !running && threadStarts == 0
    {
      this.queue := queue;
      this.status := status;
      this.config := config;
      running := false;
      threadStarts := 0;
    }

    /** `start`: a no-op when running; otherwise connect (an exception means not connected), record the status and launch the loop. */
    method Start(connect: Result<bool>) returns (emitted: seq<WorkerEvent>)
      modifies this, status
      ensures status.uptimeStart == old(status.uptimeStart)
      ensures old(running) ==> emitted == [] && threadStarts == old(threadStarts) && status.hackrfConnected == old(status.hackrfConnected)
      ensures !old(running) ==> threadStarts == old(threadStarts) + 1 && status.hackrfConnected == (connect == Ok(true))
      ensures !old(running) ==> emitted == if connect == Ok(true) then [] else [StatusUpdateEmitted(false)]
      ensures running
      ensures status.errorCount == old(status.errorCount) && status.lastTransmissionTime == old(status.lastTransmissionTime)
    {
      emitted := [];
      if running {
        return;
      }
      var connected := connect == Ok(true);
      if !connected {
        status.SetHackrfStatus(Bool(false));
        emitted := [StatusUpdateEmitted(false)];
      }
      running := true;
      threadStarts := threadStarts + 1;
      if connected {
        status.SetHackrfStatus(Bool(true));
      }
    }

    /** `stop`: clear the flag and disconnect the SDR. */
    method Stop() returns (calls: seq<WorkerEvent>)
      modifies this
      ensures !running && threadStarts == old(threadStarts) && calls == [DisconnectCalled]
    {
      running := false;
      calls := [DisconnectCalled];
    }

    /** `_handle_error`. */
    method HandleErrorStep(e: Exception) returns (trace: seq<WorkerEvent>)
      modifies status, queue
      ensures status.uptimeStart == old(status.uptimeStart)
      ensures trace == HandleError(e)
      ensures status.hackrfConnected == (!e.TransmissionError? && old(status.hackrfConnected))
      ensures queue.paused == (e.TransmissionError? || old(queue.paused)) && queue.items == old(queue.items)
      ensures status.errorCount == old(status.errorCount) + 1 && status.lastTransmissionTime == old(status.lastTransmissionTime)
    {
      trace := [];
      if e.TransmissionError? {
        status.SetHackrfStatus(Bool(false));
        queue.Pause();
        trace := Disconnection;
      }
      var message := e.Text();
      trace := trace + [StatusWritten("failed", if message != "" then Some(message) else None), LogWritten("error"), FailedEmitted(message)];
      status.IncrementErrorCount();
      trace := trace + [ErrorCounted];
    }

    /** The recipient loop of `_process_request`. */
    method RunRecipients(rs: seq<Value>, attempts: nat -> Attempt, f: Fields) returns (progress: Progress)
      ensures progress == Loop(rs, attempts, f)
    {
      var events: seq<WorkerEvent> := [];
      var error: Option<Exception> := None;
      var i := 0;
      while i < |rs| && error.None?
        invariant 0 <= i <= |rs|
        invariant Progress(events, error) == Loop(rs[..i], attempts, f)
      {
        assert rs[..i + 1][..i] == rs[..i];
        var recipient := rs[i];
        var stepEvents: seq<WorkerEvent> := [];
        var stepError: Option<Exception> := None;
        if !recipient.Dict? {
          stepError := Some(AttributeError("'" + TypeName(recipient) + "' object has no attribute 'get'"));
        } else {
          var ric := if "ric" in recipient.fields then recipient.fields["ric"] else Null;
          var attempt := attempts(i);
          stepEvents := [EncodeCalled(ric)];
          if attempt.encode.Fail? {
            stepError := Some(attempt.encode.error);
          } else {
            stepEvents := stepEvents + [StatusWritten("transmitting", None), LogWritten("transmitting"), TransmittingEmitted(ric),
                                        ConfigureCalled(f.frequency, f.sampleRate, f.gain, f.power)];
            if attempt.configure.Fail? {
              stepError := Some(attempt.configure.error);
            } else {
              stepEvents := stepEvents + [TransmitCalled(ric)];
              if attempt.transmit.Fail? {
                stepError := Some(attempt.transmit.error);
              }
            }
          }
        }
        assert Progress(stepEvents, stepError) == RecipientStep(rs[i], attempts(i), f);
        events := events + stepEvents;
        error := stepError;
        i := i + 1;
      }
      if error.Some? {
        LoopStopped(rs, attempts, f, i);
      } else {
        assert rs[..i] == rs;
      }
      progress := Progress(events, error);
    }

    /** The `try` block of `_process_request` and its handlers. */
    method RunBody(f: Fields, attempts: nat -> Attempt, now: int) returns (trace: seq<WorkerEvent>)
      modifies status, queue
      ensures status.uptimeStart == old(status.uptimeStart)
      ensures trace == Body(f, attempts)
      ensures status.hackrfConnected == (HackrfCleared !in trace && old(status.hackrfConnected))
      ensures status.errorCount == old(status.errorCount) + (if ErrorCounted in trace then 1 else 0)
      ensures queue.paused == (QueuePauseRequested in trace || old(queue.paused)) && queue.items == old(queue.items)
      ensures status.lastTransmissionTime == if TransmissionRecorded in trace then Some(now) else old(status.lastTransmissionTime)
    {
      var items := RecipientItems(f.recipients);
      if items.Err? {
        trace := HandleErrorStep(items.error);
        HandleErrorMarks(items.error);
      } else {
        var progress := RunRecipients(items.value, attempts, f);
        LoopMarks(items.value, attempts, f);
        if progress.error.None? {
          status.RecordTransmission(now);
          SuccessMarks();
          trace := progress.events + SuccessTail;
        } else {
          var handled := HandleErrorStep(progress.error.value);
          HandleErrorMarks(progress.error.value);
          trace := progress.events + handled;
        }
      }
    }

    /** `_process_request`: the exception raised before the `try` escapes and changes nothing. */
    method ProcessRequest(request: Value, attempts: nat -> Attempt, parseFloat: string -> Result<real>, now: int)
      returns (r: Result<seq<WorkerEvent>>)
      modifies status, queue
      ensures status.uptimeStart == old(status.uptimeStart)
      ensures r == ProcessTrace(request, config, attempts, parseFloat)
      ensures r.Err? ==> (status.hackrfConnected == old(status.hackrfConnected) && status.errorCount == old(status.errorCount)
                          && queue.paused == old(queue.paused))
      ensures r.Ok? ==> status.hackrfConnected == (HackrfCleared !in r.value && old(status.hackrfConnected))
      ensures r.Ok? ==> status.errorCount == old(status.errorCount) + (if ErrorCounted in r.value then 1 else 0)
      ensures r.Ok? ==> queue.paused == (QueuePauseRequested in r.value || old(queue.paused))
      ensures status.lastTransmissionTime == if r.Ok? && TransmissionRecorded in r.value then Some(now) else old(status.lastTransmissionTime)
      ensures queue.items == old(queue.items)
    {
      var fields := RequestFields(request, config, parseFloat);
      if fields.Err? {
        return Err(fields.error);
      }
      var body := RunBody(fields.value, attempts, now);
      HeaderMarks(body);
      r := Ok(Header + body);
    }

    /** One pass of `_worker_loop`. */
    method WorkerStep(attempts: nat -> Attempt, parseFloat: string -> Result<real>, now: int) returns (trace: seq<WorkerEvent>)
      modifies status, queue
      ensures status.uptimeStart == old(status.uptimeStart)
      ensures var head := if old(queue.paused) || old(queue.items) == [] then None else Some(old(queue.items)[0]);
        trace == StepTrace(head, config, attempts, parseFloat)
      ensures queue.items == if old(queue.paused) || old(queue.items) == [] then old(queue.items) else old(queue.items)[1..]
      ensures status.errorCount == old(status.errorCount) + (if ErrorCounted in trace then 1 else 0)
      ensures status.hackrfConnected == (HackrfCleared !in trace && old(status.hackrfConnected))
      ensures queue.paused == (QueuePauseRequested in trace || old(queue.paused))
      ensures status.lastTransmissionTime == if TransmissionRecorded in trace then Some(now) else old(status.lastTransmissionTime)
    {
      var request := queue.Dequeue();
      if request.None? {
        return [];
      }
      var outcome := ProcessRequest(request.value, attempts, parseFloat, now);
      if outcome.Err? {
        status.IncrementErrorCount();
        trace := [ErrorCounted];
      } else {
        trace := outcome.value;
      }
    }
  }

  // ---------------------------------------------------------------------------
  // Properties of the loop

  /** Once the loop has stopped, later recipients add nothing. */
  lemma {:induction false} LoopStopped(rs: seq<Value>, attempts: nat -> Attempt, f: Fields, i: nat)
    requires i <= |rs| && Loop(rs[..i], attempts, f).error.Some?
    ensures Loop(rs, attempts, f) == Loop(rs[..i], attempts, f)
    decreases |rs|
  {
    if i < |rs| {
      var init := rs[..|rs| - 1];
      assert init[..i] == rs[..i];
      LoopStopped(init, attempts, f, i);
    } else {
      assert rs[..i] == rs;
    }
  }

  /** The loop's events hold no error bookkeeping, no success bookkeeping, and only the `transmitting` status and stage. */
  predicate LoopEvent(e: WorkerEvent)
  {
    && !e.ErrorCounted? && !e.HackrfCleared? && !e.QueuePauseRequested? && !e.TransmissionRecorded?
    && (e.StatusWritten? ==> e == StatusWritten("transmitting", None))
    && (e.LogWritten? ==> e.stage == "transmitting")
  }

  lemma {:induction false} LoopEvents(rs: seq<Value>, attempts: nat -> Attempt, f: Fields)
    ensures forall j :: 0 <= j < |Loop(rs, attempts, f).events| ==> LoopEvent(Loop(rs, attempts, f).events[j])
    decreases |rs|
  {
    if |rs| > 0 {
      LoopEvents(rs[..|rs| - 1], attempts, f);
    }
  }

  /** Facts about the loop's events in the form `ProcessRequest` needs. */
  lemma LoopMarks(rs: seq<Value>, attempts: nat -> Attempt, f: Fields)
    ensures var ev := Loop(rs, attempts, f).events;
      ErrorCounted !in ev && HackrfCleared !in ev && QueuePauseRequested !in ev && TransmissionRecorded !in ev
  {
    LoopEvents(rs, attempts, f);
  }

  lemma HandleErrorMarks(e: Exception)
    ensures ErrorCounted in HandleError(e) && TransmissionRecorded !in HandleError(e)
    ensures HackrfCleared in HandleError(e) <==> e.TransmissionError?
    ensures QueuePauseRequested in HandleError(e) <==> e.TransmissionError?
  {
    var tail := FailedTail(e.Text());
    assert tail[3] == ErrorCounted;
    assert Disconnection[0] == HackrfCleared && Disconnection[2] == QueuePauseRequested;
  }

  lemma SuccessMarks()
    ensures TransmissionRecorded in SuccessTail
    ensures ErrorCounted !in SuccessTail && HackrfCleared !in SuccessTail && QueuePauseRequested !in SuccessTail
  {
    assert SuccessTail[3] == TransmissionRecorded;
  }

  /** The header holds none of the events that change state. */
  lemma HeaderMarks(body: seq<WorkerEvent>)
    ensures ErrorCounted in Header + body <==> ErrorCounted in body
    ensures HackrfCleared in Header + body <==> HackrfCleared in body
    ensures QueuePauseRequested in Header + body <==> QueuePauseRequested in body
    ensures TransmissionRecorded in Header + body <==> TransmissionRecorded in body
  {
  }

  /** The loop completes exactly when every recipient is a dict whose encode, configure and transmit all return normally. */
  lemma {:induction false} LoopCompletes(rs: seq<Value>, attempts: nat -> Attempt, f: Fields)
    ensures Loop(rs, attempts, f).error.None? <==>
      forall i :: 0 <= i < |rs| ==> rs[i].Dict? && attempts(i) == Attempt(Pass, Pass, Pass)
    decreases |rs|
  {
    if |rs| > 0 {
      var init := rs[..|rs| - 1];
      LoopCompletes(init, attempts, f);
      assert forall i :: 0 <= i < |init| ==> init[i] == rs[i];
    }
  }

  /** The events of a recipient that is fully served. */
  function Served(ric: Value, f: Fields): seq<WorkerEvent>
  {
    [EncodeCalled(ric), StatusWritten("transmitting", None), LogWritten("transmitting"), TransmittingEmitted(ric),
     ConfigureCalled(f.frequency, f.sampleRate, f.gain, f.power), TransmitCalled(ric)]
  }

  /** The `ric` a recipient record carries, `None` if it has none. */
  function RicOf(recipient: Value): Value
    requires recipient.Dict?
  {
    if "ric" in recipient.fields then recipient.fields["ric"] else Null
  }

  /** The events of serving every recipient of `rs`, in order. */
  function AllServed(rs: seq<Value>, f: Fields): seq<WorkerEvent>
    requires forall i :: 0 <= i < |rs| ==> rs[i].Dict?
  {
    if |rs| == 0 then [] else AllServed(rs[..|rs| - 1], f) + Served(RicOf(rs[|rs| - 1]), f)
  }

  /** Every recipient is served in list order: encode, `transmitting`, configure, transmit. */
  lemma {:induction false} InOrder(rs: seq<Value>, attempts: nat -> Attempt, f: Fields, k: nat)
    requires k <= |rs|
    requires forall i :: 0 <= i < k ==> rs[i].Dict? && attempts(i) == Attempt(Pass, Pass, Pass)
    ensures forall i :: 0 <= i < k ==> rs[..k][i].Dict?
    ensures Loop(rs[..k], attempts, f) == Progress(AllServed(rs[..k], f), None)
    decreases k
  {
    if k > 0 {
      InOrder(rs, attempts, f, k - 1);
      assert rs[..k][..k - 1] == rs[..k - 1];
    }
  }

  /** Serving takes six events per recipient, and the i-th six are recipient i's. */
  lemma {:induction false} AllServedAt(rs: seq<Value>, f: Fields, i: nat)
    requires forall j :: 0 <= j < |rs| ==> rs[j].Dict?
    requires i < |rs|
    ensures |AllServed(rs, f)| == 6 * |rs|
    ensures AllServed(rs, f)[6 * i..6 * i + 6] == Served(RicOf(rs[i]), f)
    decreases |rs|
  {
    var init := rs[..|rs| - 1];
    if i < |init| {
      AllServedAt(init, f, i);
      assert init[i] == rs[i];
      assert AllServed(rs, f)[6 * i..6 * i + 6] == AllServed(init, f)[6 * i..6 * i + 6];
    } else if |init| > 0 {
      AllServedAt(init, f, 0);
    }
  }

  /** When every recipient is a dict and every call returns normally, the body serves them all and succeeds. */
  lemma AllPass(f: Fields, attempts: nat -> Attempt)
    requires RecipientItems(f.recipients).Ok?
    requires forall j :: 0 <= j < |RecipientItems(f.recipients).value| ==>
      RecipientItems(f.recipients).value[j].Dict? && attempts(j) == Attempt(Pass, Pass, Pass)
    ensures Body(f, attempts) == AllServed(RecipientItems(f.recipients).value, f) + SuccessTail
  {
    var rs := RecipientItems(f.recipients).value;
    InOrder(rs, attempts, f, |rs|);
    assert rs[..|rs|] == rs;
  }

  /** The first failing recipient ends the loop: the earlier ones were served, and its own events stop at the call that raised. */
  lemma FirstFailure(rs: seq<Value>, attempts: nat -> Attempt, f: Fields, k: nat)
    requires k < |rs|
    requires forall i :: 0 <= i < k ==> rs[i].Dict? && attempts(i) == Attempt(Pass, Pass, Pass)
    requires RecipientStep(rs[k], attempts(k), f).error.Some?
    ensures forall i :: 0 <= i < k ==> rs[..k][i].Dict?
    ensures Loop(rs, attempts, f) ==
      Progress(AllServed(rs[..k], f) + RecipientStep(rs[k], attempts(k), f).events, RecipientStep(rs[k], attempts(k), f).error)
  {
    InOrder(rs, attempts, f, k);
    assert rs[..k + 1][..k] == rs[..k];
    LoopStopped(rs, attempts, f, k + 1);
  }

  // ---------------------------------------------------------------------------
  // Properties of a whole request

  /** A request whose fields could be read runs the header and then the body. */
  lemma Processed(request: Value, config: Config.Tree, attempts: nat -> Attempt, parseFloat: string -> Result<real>, f: Fields)
    requires RequestFields(request, config, parseFloat) == Ok(f)
    ensures ProcessTrace(request, config, attempts, parseFloat) == Ok(Header + Body(f, attempts))
  {
  }

  /** Every status the body writes is a valid message status and every log stage a valid stage. */
  lemma {:induction false} BodyStatusesValid(f: Fields, attempts: nat -> Attempt)
    ensures var t := Body(f, attempts);
      forall j :: 0 <= j < |t| ==> (t[j].StatusWritten? ==> t[j].status in ValidStatus) && (t[j].LogWritten? ==> t[j].stage in ValidStages)
  {
    match RecipientItems(f.recipients)
    case Err(e) =>
      FailedTailValid(e);
    case Ok(rs) =>
      LoopEvents(rs, attempts, f);
      var p := Loop(rs, attempts, f);
      if p.error.Some? {
        FailedTailValid(p.error.value);
      }
  }

  lemma FailedTailValid(e: Exception)
    ensures var t := HandleError(e);
      forall j :: 0 <= j < |t| ==> (t[j].StatusWritten? ==> t[j].status in ValidStatus) && (t[j].LogWritten? ==> t[j].stage in ValidStages)
  {
  }

  /** Every status written for a request is a valid message status and every log stage a valid stage. */
  lemma StatusesValid(request: Value, config: Config.Tree, attempts: nat -> Attempt, parseFloat: string -> Result<real>)
    requires ProcessTrace(request, config, attempts, parseFloat).Ok?
    ensures var t := ProcessTrace(request, config, attempts, parseFloat).value;
      forall j :: 0 <= j < |t| ==> (t[j].StatusWritten? ==> t[j].status in ValidStatus) && (t[j].LogWritten? ==> t[j].stage in ValidStages)
  {
    var f := RequestFields(request, config, parseFloat).value;
    Processed(request, config, attempts, parseFloat, f);
    BodyStatusesValid(f, attempts);
  }

  /** The `encoding` status and stage come first, before any call to the encoder. */
  lemma EncodingFirst(request: Value, config: Config.Tree, attempts: nat -> Attempt, parseFloat: string -> Result<real>)
    requires ProcessTrace(request, config, attempts, parseFloat).Ok?
    ensures var t := ProcessTrace(request, config, attempts, parseFloat).value;
      |t| >= 3 && t[0] == StatusWritten("encoding", None) && t[1] == LogWritten("encoding")
  {
    var f := RequestFields(request, config, parseFloat).value;
    Processed(request, config, attempts, parseFloat, f);
  }

  /** `success`, `complete` and the transmission record happen exactly when every recipient was served. */
  lemma SuccessIffAllServed(f: Fields, attempts: nat -> Attempt)
    requires RecipientItems(f.recipients).Ok?
    ensures var rs := RecipientItems(f.recipients).value;
      TransmissionRecorded in Body(f, attempts) <==> forall i :: 0 <= i < |rs| ==> rs[i].Dict? && attempts(i) == Attempt(Pass, Pass, Pass)
  {
    var rs := RecipientItems(f.recipients).value;
    LoopCompletes(rs, attempts, f);
    LoopMarks(rs, attempts, f);
    var p := Loop(rs, attempts, f);
    if p.error.Some? {
      HandleErrorMarks(p.error.value);
    } else {
      SuccessMarks();
    }
  }

  /** A failed request is counted exactly once, as its last event; a successful one is not counted. */
  lemma FailureCountedOnce(f: Fields, attempts: nat -> Attempt)
    ensures TransmissionRecorded in Body(f, attempts) <==> Raised(f, attempts).None?
    ensures Raised(f, attempts).None? ==> ErrorCounted !in Body(f, attempts)
    ensures Raised(f, attempts).Some? ==> CountedLast(Body(f, attempts))
  {
    match RecipientItems(f.recipients)
    case Err(e) =>
      HandleErrorCounts([], e);
    case Ok(rs) =>
      var p := Loop(rs, attempts, f);
      LoopMarks(rs, attempts, f);
      if p.error.Some? {
        HandleErrorCounts(p.events, p.error.value);
      } else {
        SuccessMarks();
      }
  }

  /** `t` ends with the error count and has no other. */
  predicate CountedLast(t: seq<WorkerEvent>)
  {
    |t| > 0 && t[|t| - 1] == ErrorCounted && ErrorCounted !in t[..|t| - 1]
  }

  lemma HandleErrorCounts(before: seq<WorkerEvent>, e: Exception)
    requires ErrorCounted !in before
    ensures CountedLast(before + HandleError(e)) && TransmissionRecorded !in HandleError(e)
  {
    var pre := if e.TransmissionError? then Disconnection else [];
    var tail := FailedTail(e.Text());
    var t := before + HandleError(e);
    assert HandleError(e) == pre + tail;
    assert t[..|t| - 1] == before + pre + tail[..3];
  }

  /** Only a `TransmissionError` clears the hardware status, disconnects the SDR and pauses the queue. */
  lemma OnlyTransmissionErrorPauses(f: Fields, attempts: nat -> Attempt)
    ensures QueuePauseRequested in Body(f, attempts) <==> Raised(f, attempts).Some? && Raised(f, attempts).value.TransmissionError?
    ensures HackrfCleared in Body(f, attempts) <==> Raised(f, attempts).Some? && Raised(f, attempts).value.TransmissionError?
  {
    match RecipientItems(f.recipients)
    case Err(e) =>
      HandleErrorMarks(e);
    case Ok(rs) =>
      var p := Loop(rs, attempts, f);
      LoopMarks(rs, attempts, f);
      if p.error.Some? {
        HandleErrorMarks(p.error.value);
      } else {
        SuccessMarks();
      }
  }
}
