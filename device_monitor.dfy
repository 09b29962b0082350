/**
 * The HackRF connectivity monitor: one iteration of its polling loop, with the reconnection
 * attempt it makes while the device is away. The SDR's answers and the configuration are
 * parameters; what the iteration does to the outside is its trace of events.
 */
module Monitor {
  import opened Wrappers
  import opened Values
  import Config
  import opened Queue
  import opened Status

  datatype MonitorEvent =
    | StatusSet(connected: bool)
    | QueuePaused
    | QueueResumed
    | Configured(frequency: real, sampleRate: real, gain: real, power: real)
    | Emitted(payload: Value)

  /** The settings `_attempt_reconnect` reads, with the `pocsag` section it later asks for the baud rate. */
  datatype Settings = Settings(frequency: real, sampleRate: real, gain: real, power: real, pocsag: Value)

  function ConnectedPayload(connected: bool): Value
  {
    Dict(map["hackrf_connected" := Bool(connected)])
  }

  /** `cfg or {}`, then the `system` and `pocsag` sections and the four settings with their defaults. */
  function ReconnectSettings(cfg: Value, parseFloat: string -> Result<real>): Result<Settings>
  {
    var c := if Truthy(cfg) then cfg else Dict(map[]);
    var system :- Config.Get(c, "system", Dict(map[]));
    var pocsag :- Config.Get(c, "pocsag", Dict(map[]));
    var frequency :- Config.Get(system, "frequency", Float(439.9875));
    var f :- Config.FloatOf(frequency, parseFloat);
    var sampleRate :- Config.Get(system, "sample_rate", Float(2.0));
    var sr :- Config.FloatOf(sampleRate, parseFloat);
    var gain :- Config.Get(system, "if_gain", Int(40));
    var g :- Config.FloatOf(gain, parseFloat);
    var power :- Config.Get(system, "transmit_power", Int(10));
    var p :- Config.FloatOf(power, parseFloat);
    Ok(Settings(f, sr, g, p, pocsag))
  }

  /**
   * What `_attempt_reconnect` does: nothing unless `connect()` returned true; then configure
   * (whose failure `configure` is swallowed), set the status, emit, resume. Any other
   * exception ends the attempt where it is raised: a non-dict `pocsag` section raises at the
   * emit, after the status was set and before the queue is resumed.
   */
  function ReconnectTrace(connect: Result<bool>, cfg: Value, hasQueue: bool, configure: Outcome,
                          parseFloat: string -> Result<real>): seq<MonitorEvent>
  {
    if connect != Ok(true) then []
    else match ReconnectSettings(cfg, parseFloat)
      case Err(_) => []
      case Ok(st) =>
        var head := [Configured(st.frequency, st.sampleRate, st.gain, st.power), StatusSet(true)];
        match Config.Get(st.pocsag, "baud_rate", Null)
        case Err(_) => head
        case Ok(baud) =>
          head + [Emitted(Dict(map["hackrf_connected" := Bool(true), "frequency" := Float(st.frequency), "baud_rate" := baud]))]
          + (if hasQueue then [QueueResumed] else [])
  }

  /** One pass of `_monitor_loop`: a probe that raises counts as disconnected. */
  function StepTrace(lastConnected: bool, probe: Result<bool>, connect: Result<bool>, cfg: Value, hasQueue: bool,
                     configure: Outcome, parseFloat: string -> Result<real>): seq<MonitorEvent>
  {
    var connected := probe == Ok(true);
    if !connected then
      (if lastConnected then [StatusSet(false)] + (if hasQueue then [QueuePaused] else []) + [Emitted(ConnectedPayload(false))] else [])
      + ReconnectTrace(connect, cfg, hasQueue, configure, parseFloat)
    else if !lastConnected then [StatusSet(true)] + (if hasQueue then [QueueResumed] else []) + [Emitted(ConnectedPayload(true))]
    else []
  }

  /** The status flag after the trace: the last value set, if any. */
  function FinalStatus(before: bool, trace: seq<MonitorEvent>): bool
  {
    if |trace| == 0 then before
    else match trace[|trace| - 1]
      case StatusSet(b) => b
      case _ => FinalStatus(before, trace[..|trace| - 1])
  }

  /** The queue's pause flag after the trace: the last pause or resume, if any. */
  function FinalPaused(before: bool, trace: seq<MonitorEvent>): bool
  {
    if |trace| == 0 then before
    else match trace[|trace| - 1]
      case QueuePaused => true
      case QueueResumed => false
      case _ => FinalPaused(before, trace[..|trace| - 1])
  }

  class DeviceMonitor {
    const queue: TransmissionQueue?
    const status: SystemStatus
    var running: bool
    /** How many polling threads `start` has launched. */
    var threadStarts: nat
    var lastConnected: bool

    constructor(queue: TransmissionQueue?, status: SystemStatus)
      ensures this.queue == queue && this.status == status
      ensures !running && threadStarts == 0 && !lastConnected
    {
      this.queue := queue;
      this.status := status;
      running := false;
      threadStarts := 0;
      lastConnected := false;
    }

    /** `start`: a no-op when already running; otherwise mark running and launch the loop. */
    method Start()
      modifies this
      ensures running && lastConnected == old(lastConnected)
      ensures threadStarts == if old(running) then old(threadStarts) else old(threadStarts) + 1
    {
      if running {
        return;
      }
      running := true;
      threadStarts := threadStarts + 1;
    }

    method Stop()
      modifies this
      ensures !running && threadStarts == old(threadStarts) && lastConnected == old(lastConnected)
    {
      running := false;
    }

    /** `_pause_queue`: only a queue that exists is paused. */
    method PauseQueue() returns (trace: seq<MonitorEvent>)
      modifies queue
      ensures trace == if queue != null then [QueuePaused] else []
      ensures queue != null ==> queue.paused && queue.items == old(queue.items)
    {
      trace := [];
      if queue != null {
        queue.Pause();
        trace := [QueuePaused];
      }
    }

    method ResumeQueue() returns (trace: seq<MonitorEvent>)
      modifies queue
      ensures trace == if queue != null then [QueueResumed] else []
      ensures queue != null ==> !queue.paused && queue.items == old(queue.items)
    {
      trace := [];
      if queue != null {
        queue.Resume();
        trace := [QueueResumed];
      }
    }

    /** `_attempt_reconnect`. */
    method AttemptReconnect(connect: Result<bool>, cfg: Value, configure: Outcome, parseFloat: string -> Result<real>)
      returns (trace: seq<MonitorEvent>)
      modifies status, queue
      ensures status.uptimeStart == old(status.uptimeStart)
      ensures trace == ReconnectTrace(connect, cfg, queue != null, configure, parseFloat)
      ensures status.hackrfConnected == FinalStatus(old(status.hackrfConnected), trace)
      ensures queue != null ==> queue.paused == FinalPaused(old(queue.paused), trace) && queue.items == old(queue.items)
      ensures status.errorCount == old(status.errorCount) && status.lastTransmissionTime == old(status.lastTransmissionTime)
    {
      ReconnectEffects(connect, cfg, queue != null, configure, parseFloat, status.hackrfConnected, if queue != null then queue.paused else false);
      trace := [];
      if connect != Ok(true) {
        return;
      }
      var settings := ReconnectSettings(cfg, parseFloat);
      if settings.Err? {
        return;
      }
      var st := settings.value;
      trace := [Configured(st.frequency, st.sampleRate, st.gain, st.power)];
      status.SetHackrfStatus(Bool(true));
      trace := trace + [StatusSet(true)];
      var baud := Config.Get(st.pocsag, "baud_rate", Null);
      if baud.Err? {
        return;
      }
      trace := trace + [Emitted(Dict(map["hackrf_connected" := Bool(true), "frequency" := Float(st.frequency), "baud_rate" := baud.value]))];
      var resumed := ResumeQueue();
      trace := trace + resumed;
    }

    /** One iteration of `_monitor_loop`. */
    method MonitorStep(probe: Result<bool>, connect: Result<bool>, cfg: Value, configure: Outcome,
                       parseFloat: string -> Result<real>)
      returns (trace: seq<MonitorEvent>)
      modifies this, status, queue
      ensures status.uptimeStart == old(status.uptimeStart)
      ensures trace == StepTrace(old(lastConnected), probe, connect, cfg, queue != null, configure, parseFloat)
      ensures status.hackrfConnected == FinalStatus(old(status.hackrfConnected), trace)
      ensures queue != null ==> queue.paused == FinalPaused(old(queue.paused), trace) && queue.items == old(queue.items)
      ensures lastConnected == (probe == Ok(true) || status.hackrfConnected)
      ensures running == old(running) && threadStarts == old(threadStarts)
      ensures status.errorCount == old(status.errorCount) && status.lastTransmissionTime == old(status.lastTransmissionTime)
    {
      var connected := probe == Ok(true);
      trace := [];
      if !connected {
        if lastConnected {
          status.SetHackrfStatus(Bool(false));
          var paused := PauseQueue();
          trace := [StatusSet(false)] + paused + [Emitted(ConnectedPayload(false))];
          FinalAfterFallingEdge(old(status.hackrfConnected), queue != null, trace);
        }
        ghost var before := trace;
        var reconnect := AttemptReconnect(connect, cfg, configure, parseFloat);
        trace := trace + reconnect;
        FinalStatusAppend(old(status.hackrfConnected), before, reconnect);
        if queue != null {
          FinalPausedAppend(old(queue.paused), before, reconnect);
        }
      } else if !lastConnected {
        status.SetHackrfStatus(Bool(true));
        var resumed := ResumeQueue();
        trace := [StatusSet(true)] + resumed + [Emitted(ConnectedPayload(true))];
        FinalAfterRisingEdge(old(status.hackrfConnected), queue != null, trace);
      }
      lastConnected := connected || status.GetHackrfStatus();
    }
  }

  // ---------------------------------------------------------------------------
  // Properties of the final flags

  lemma {:induction false} FinalStatusAppend(before: bool, a: seq<MonitorEvent>, b: seq<MonitorEvent>)
    ensures FinalStatus(before, a + b) == FinalStatus(FinalStatus(before, a), b)
    decreases |b|
  {
    if |b| == 0 {
      assert a + b == a;
    } else {
      assert (a + b)[..|a + b| - 1] == a + b[..|b| - 1];
      FinalStatusAppend(before, a, b[..|b| - 1]);
    }
  }

  lemma {:induction false} FinalPausedAppend(before: bool, a: seq<MonitorEvent>, b: seq<MonitorEvent>)
    ensures FinalPaused(before, a + b) == FinalPaused(FinalPaused(before, a), b)
    decreases |b|
  {
    if |b| == 0 {
      assert a + b == a;
    } else {
      assert (a + b)[..|a + b| - 1] == a + b[..|b| - 1];
      FinalPausedAppend(before, a, b[..|b| - 1]);
    }
  }

  lemma FinalStatusSnoc(before: bool, t: seq<MonitorEvent>, e: MonitorEvent)
    ensures FinalStatus(before, t + [e]) == if e.StatusSet? then e.connected else FinalStatus(before, t)
  {
    assert (t + [e])[..|t|] == t;
  }

  lemma FinalPausedSnoc(before: bool, t: seq<MonitorEvent>, e: MonitorEvent)
    ensures FinalPaused(before, t + [e]) == if e.QueuePaused? then true else if e.QueueResumed? then false else FinalPaused(before, t)
  {
    assert (t + [e])[..|t|] == t;
  }

  /** The falling edge leaves the status cleared and, with a queue, the queue paused. */
  lemma FinalAfterFallingEdge(before: bool, hasQueue: bool, trace: seq<MonitorEvent>)
    requires trace == [StatusSet(false)] + (if hasQueue then [QueuePaused] else []) + [Emitted(ConnectedPayload(false))]
    ensures !FinalStatus(before, trace)
    ensures forall p :: FinalPaused(p, trace) == (hasQueue || p)
  {
    var t := [StatusSet(false)] + (if hasQueue then [QueuePaused] else []);
    FinalStatusSnoc(before, t, Emitted(ConnectedPayload(false)));
    FinalStatusSnoc(before, [], StatusSet(false));
    forall p
      ensures FinalPaused(p, trace) == (hasQueue || p)
    {
      FinalPausedSnoc(p, t, Emitted(ConnectedPayload(false)));
      FinalPausedSnoc(p, [], StatusSet(false));
      if hasQueue {
        FinalStatusSnoc(before, [StatusSet(false)], QueuePaused);
        FinalPausedSnoc(p, [StatusSet(false)], QueuePaused);
      } else {
        assert t == [] + [StatusSet(false)];
      }
    }
    if hasQueue {
      FinalStatusSnoc(before, [StatusSet(false)], QueuePaused);
    } else {
      assert t == [] + [StatusSet(false)];
    }
  }

  /** The rising edge leaves the status set and, with a queue, the queue resumed. */
  lemma FinalAfterRisingEdge(before: bool, hasQueue: bool, trace: seq<MonitorEvent>)
    requires trace == [StatusSet(true)] + (if hasQueue then [QueueResumed] else []) + [Emitted(ConnectedPayload(true))]
    ensures FinalStatus(before, trace)
    ensures forall p :: FinalPaused(p, trace) == (!hasQueue && p)
  {
    var t := [StatusSet(true)] + (if hasQueue then [QueueResumed] else []);
    FinalStatusSnoc(before, t, Emitted(ConnectedPayload(true)));
    FinalStatusSnoc(before, [], StatusSet(true));
    forall p
      ensures FinalPaused(p, trace) == (!hasQueue && p)
    {
      FinalPausedSnoc(p, t, Emitted(ConnectedPayload(true)));
      FinalPausedSnoc(p, [], StatusSet(true));
      if hasQueue {
        FinalPausedSnoc(p, [StatusSet(true)], QueueResumed);
      } else {
        assert t == [] + [StatusSet(true)];
      }
    }
    if hasQueue {
      FinalStatusSnoc(before, [StatusSet(true)], QueueResumed);
    } else {
      assert t == [] + [StatusSet(true)];
    }
  }

  /** A reconnection that did anything leaves the status set; it resumes the queue exactly when it reached the emit. */
  lemma ReconnectEffects(connect: Result<bool>, cfg: Value, hasQueue: bool, configure: Outcome,
                         parseFloat: string -> Result<real>, status: bool, paused: bool)
    ensures var r := ReconnectTrace(connect, cfg, hasQueue, configure, parseFloat);
      FinalStatus(status, r) == (status || r != [])
    ensures var r := ReconnectTrace(connect, cfg, hasQueue, configure, parseFloat);
      FinalPaused(paused, r) == (paused && QueueResumed !in r)
  {
    var r := ReconnectTrace(connect, cfg, hasQueue, configure, parseFloat);
    if r != [] {
      var st := ReconnectSettings(cfg, parseFloat).value;
      var c := Configured(st.frequency, st.sampleRate, st.gain, st.power);
      var head := [c, StatusSet(true)];
      assert head == [c] + [StatusSet(true)];
      FinalStatusSnoc(status, [c], StatusSet(true));
      FinalPausedSnoc(paused, [c], StatusSet(true));
      FinalPausedSnoc(paused, [], c);
      assert [c] == [] + [c];
      var baud := Config.Get(st.pocsag, "baud_rate", Null);
      if baud.Ok? {
        var e := Emitted(Dict(map["hackrf_connected" := Bool(true), "frequency" := Float(st.frequency), "baud_rate" := baud.value]));
        FinalStatusSnoc(status, head, e);
        FinalPausedSnoc(paused, head, e);
        if hasQueue {
          FinalStatusSnoc(status, head + [e], QueueResumed);
          FinalPausedSnoc(paused, head + [e], QueueResumed);
        } else {
          assert r == head + [e];
        }
      }
    }
  }

  // ---------------------------------------------------------------------------
  // Properties of one iteration

  /** A probe that raises is treated exactly like one that answers "disconnected". */
  lemma ProbeErrorIsDisconnected(last: bool, e: Exception, connect: Result<bool>, cfg: Value, hasQueue: bool,
                                 configure: Outcome, parseFloat: string -> Result<real>)
    ensures StepTrace(last, Err(e), connect, cfg, hasQueue, configure, parseFloat)
         == StepTrace(last, Ok(false), connect, cfg, hasQueue, configure, parseFloat)
  {
  }

  /** The reconnection attempt never pauses the queue. */
  lemma ReconnectNeverPauses(connect: Result<bool>, cfg: Value, hasQueue: bool, configure: Outcome,
                             parseFloat: string -> Result<real>)
    ensures QueuePaused !in ReconnectTrace(connect, cfg, hasQueue, configure, parseFloat)
  {
  }

  /** The queue is paused exactly on a connected-to-disconnected edge (and only if there is a queue). */
  lemma PausesOnFallingEdge(last: bool, probe: Result<bool>, connect: Result<bool>, cfg: Value, hasQueue: bool,
                            configure: Outcome, parseFloat: string -> Result<real>)
    ensures QueuePaused in StepTrace(last, probe, connect, cfg, hasQueue, configure, parseFloat)
        <==> last && probe != Ok(true) && hasQueue
  {
    ReconnectNeverPauses(connect, cfg, hasQueue, configure, parseFloat);
  }

  /** A failed reconnection attempt does nothing at all. */
  lemma FailedReconnectIsSilent(connect: Result<bool>, cfg: Value, hasQueue: bool, configure: Outcome,
                                parseFloat: string -> Result<real>)
    requires connect != Ok(true)
    ensures ReconnectTrace(connect, cfg, hasQueue, configure, parseFloat) == []
  {
  }

  /** Whether `configure` raises makes no difference to a reconnection. */
  lemma ReconnectIgnoresConfigure(connect: Result<bool>, cfg: Value, hasQueue: bool, e: Exception,
                                  parseFloat: string -> Result<real>)
    ensures ReconnectTrace(connect, cfg, hasQueue, Fail(e), parseFloat) == ReconnectTrace(connect, cfg, hasQueue, Pass, parseFloat)
  {
  }

  /** A disconnected iteration whose reconnection succeeds with readable settings ends with the status set and the queue running. */
  lemma ReconnectRestores(last: bool, probe: Result<bool>, cfg: Value, hasQueue: bool, configure: Outcome,
                          parseFloat: string -> Result<real>, status: bool, paused: bool)
    requires probe != Ok(true)
    requires ReconnectSettings(cfg, parseFloat).Ok? && ReconnectSettings(cfg, parseFloat).value.pocsag.Dict?
    ensures FinalStatus(status, StepTrace(last, probe, Ok(true), cfg, hasQueue, configure, parseFloat))
    ensures hasQueue ==> !FinalPaused(paused, StepTrace(last, probe, Ok(true), cfg, hasQueue, configure, parseFloat))
  {
    var edge := if last then [StatusSet(false)] + (if hasQueue then [QueuePaused] else []) + [Emitted(ConnectedPayload(false))] else [];
    var r := ReconnectTrace(Ok(true), cfg, hasQueue, configure, parseFloat);
    assert StepTrace(last, probe, Ok(true), cfg, hasQueue, configure, parseFloat) == edge + r;
    assert r != [];
    assert hasQueue ==> QueueResumed == r[|r| - 1];
    FinalStatusAppend(status, edge, r);
    FinalPausedAppend(paused, edge, r);
    ReconnectEffects(Ok(true), cfg, hasQueue, configure, parseFloat, FinalStatus(status, edge), FinalPaused(paused, edge));
  }

  /** A `pocsag` section that is not a dict sets the status on reconnection but never resumes the queue. */
  lemma StatusWithoutResume(cfg: Value, hasQueue: bool, configure: Outcome, parseFloat: string -> Result<real>, status: bool)
    requires ReconnectSettings(cfg, parseFloat).Ok? && !ReconnectSettings(cfg, parseFloat).value.pocsag.Dict?
    ensures FinalStatus(status, ReconnectTrace(Ok(true), cfg, hasQueue, configure, parseFloat))
    ensures QueueResumed !in ReconnectTrace(Ok(true), cfg, hasQueue, configure, parseFloat)
  {
  }

  /** A connected-to-connected iteration does nothing; disconnected-to-connected sets the status and resumes. */
  lemma ConnectedIterations(last: bool, connect: Result<bool>, cfg: Value, hasQueue: bool, configure: Outcome,
                            parseFloat: string -> Result<real>, status: bool, paused: bool)
    ensures last ==> StepTrace(last, Ok(true), connect, cfg, hasQueue, configure, parseFloat) == []
    ensures !last ==> FinalStatus(status, StepTrace(last, Ok(true), connect, cfg, hasQueue, configure, parseFloat))
    ensures !last && hasQueue ==> !FinalPaused(paused, StepTrace(last, Ok(true), connect, cfg, hasQueue, configure, parseFloat))
  {
    if !last {
      FinalAfterRisingEdge(status, hasQueue, StepTrace(last, Ok(true), connect, cfg, hasQueue, configure, parseFloat));
    }
  }
}
