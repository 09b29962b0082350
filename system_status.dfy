/**
 * The process-wide hardware status: whether the HackRF is connected, when the last
 * transmission finished, how many errors occurred and when the process started. In the
 * system these are class-level fields shared by everyone; here they are one object that the
 * worker and the monitor share. Clock readings are parameters.
 */
module Status {
  import opened Wrappers
  import opened Values

  /** The report of `get_status_dict`; times are clock readings in seconds. */
  datatype Report = Report(
    hackrfConnected: bool,
    lastTransmissionTime: Option<int>,
    errorCount: nat,
    uptimeSeconds: int,
    queueSize: int)

  class SystemStatus {
    var hackrfConnected: bool
    var lastTransmissionTime: Option<int>
    var errorCount: nat
    var uptimeStart: int

    /** The class attributes' initial values, with the clock read at `now`. */
    constructor(now: int)
      ensures !hackrfConnected && lastTransmissionTime == None && errorCount == 0 && uptimeStart == now
    {
      hackrfConnected := false;
      lastTransmissionTime := None;
      errorCount := 0;
      uptimeStart := now;
    }

    method Reset(now: int)
      modifies this
      ensures !hackrfConnected && lastTransmissionTime == None && errorCount == 0 && uptimeStart == now
    {
      hackrfConnected := false;
      lastTransmissionTime := None;
      errorCount := 0;
      uptimeStart := now;
    }

    /** `set_hackrf_status(connected)` stores `bool(connected)`. */
    method SetHackrfStatus(connected: Value)
      modifies this
      ensures hackrfConnected == Truthy(connected)
      ensures lastTransmissionTime == old(lastTransmissionTime) && errorCount == old(errorCount) && uptimeStart == old(uptimeStart)
    {
      hackrfConnected := Truthy(connected);
    }

    function GetHackrfStatus(): bool
      reads this
    {
      hackrfConnected
    }

    method RecordTransmission(now: int)
      modifies this
      ensures lastTransmissionTime == Some(now)
      ensures hackrfConnected == old(hackrfConnected) && errorCount == old(errorCount) && uptimeStart == old(uptimeStart)
    {
      lastTransmissionTime := Some(now);
    }

    method IncrementErrorCount()
      modifies this
      ensures errorCount == old(errorCount) + 1
      ensures hackrfConnected == old(hackrfConnected) && lastTransmissionTime == old(lastTransmissionTime) && uptimeStart == old(uptimeStart)
    {
      errorCount := errorCount + 1;
    }

    function GetUptime(now: int): int
      reads this
    {
      now - uptimeStart
    }

    /** `get_status_dict(queue_size)` read at `now`. */
    function GetStatusDict(queueSize: int, now: int): (report: Report)
      reads this
      ensures report.hackrfConnected == hackrfConnected && report.errorCount == errorCount
      ensures report.queueSize == queueSize && report.lastTransmissionTime == lastTransmissionTime
      ensures report.uptimeSeconds == GetUptime(now)
    {
      Report(hackrfConnected, lastTransmissionTime, errorCount, GetUptime(now), queueSize)
    }
  }

  /** The flag reads back what was set, as `bool()` sees it, and a report then shows it. */
  method StatusRoundTrip(connected: Value, queueSize: int, now: int) returns (flag: bool, report: Report)
    ensures flag == Truthy(connected) && report.hackrfConnected == Truthy(connected)
    ensures report.queueSize == queueSize && report.errorCount == 0 && report.lastTransmissionTime == None
  {
    var status := new SystemStatus(now);
    status.SetHackrfStatus(connected);
    flag := status.GetHackrfStatus();
    report := status.GetStatusDict(queueSize, now);
  }

  /** Errors count up one at a time and `reset` clears them together with the flag and the last transmission. */
  method CountAndReset(now: int, later: int) returns (before: nat, after: Report)
    ensures before == 2
    ensures after == Report(false, None, 0, 0, 0)
  {
    var status := new SystemStatus(now);
    status.SetHackrfStatus(Bool(true));
    status.IncrementErrorCount();
    status.RecordTransmission(later);
    status.IncrementErrorCount();
    before := status.errorCount;
    status.Reset(later);
    after := status.GetStatusDict(0, later);
  }
}
