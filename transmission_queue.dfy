/** The FIFO of transmission requests between the message service and the worker, with a pause flag. */
module Queue {
  import opened Wrappers
  import opened Values

  /** The keys every request must carry. */
  const RequiredKeys: set<string> := {"message_id", "recipients", "message_text", "message_type", "frequency", "baud_rate"}

  const MissingKeysError: Exception := ValueError("Request missing required keys")
  const RecipientsError: Exception := ValueError("Recipients must be a list of dicts with ric and pager_id")

  /** One recipient record: a dict with `ric` and `pager_id`. */
  predicate RecipientRecord(r: Value)
  {
    r.Dict? && "ric" in r.fields && "pager_id" in r.fields
  }

  /** A request `enqueue` accepts: a dict with every required key whose `recipients` is a list of recipient records. */
  predicate WellFormedRequest(request: Value)
  {
    && request.Dict?
    && RequiredKeys <= request.fields.Keys
    && request.fields["recipients"].List?
    && forall i :: 0 <= i < |request.fields["recipients"].items| ==> RecipientRecord(request.fields["recipients"].items[i])
  }

  /** The checks of `enqueue`, in order: a value that is not a dict has no `keys`, then the key set, then the recipients. */
  function CheckRequest(request: Value): Outcome
  {
    if !request.Dict? then Fail(AttributeError("'" + TypeName(request) + "' object has no attribute 'keys'"))
    else if !(RequiredKeys <= request.fields.Keys) then Fail(MissingKeysError)
    else
      var recipients := request.fields["recipients"];
      if !recipients.List? then Fail(RecipientsError)
      else if exists i :: 0 <= i < |recipients.items| && !RecipientRecord(recipients.items[i]) then Fail(RecipientsError)
      else Pass
  }

  class TransmissionQueue {
    /** The waiting requests, oldest first. */
    var items: seq<Value>
    var paused: bool

    constructor()
      ensures items == [] && !paused
    {
      items := [];
      paused := false;
    }

    /** `enqueue`: check the request's shape, then append it at the tail and return `True`. */
    method Enqueue(request: Value) returns (r: Result<bool>)
      modifies this
      ensures CheckRequest(request).Fail? ==> r == Err(CheckRequest(request).error) && items == old(items)
      ensures CheckRequest(request) == Pass ==> r == Ok(true) && items == old(items) + [request]
      ensures paused == old(paused)
    {
      var check := CheckRequest(request);
      if check.Fail? {
        return Err(check.error);
      }
      items := items + [request];
      r := Ok(true);
    }

    /** `dequeue`: nothing while paused or empty; otherwise the oldest request, removed. */
    method Dequeue() returns (r: Option<Value>)
      modifies this
      ensures old(paused) || old(items) == [] ==> r == None && items == old(items)
      ensures !old(paused) && old(items) != [] ==> r == Some(old(items)[0]) && items == old(items)[1..]
      ensures paused == old(paused)
    {
      if paused || items == [] {
        return None;
      }
      r := Some(items[0]);
      items := items[1..];
    }

    function Size(): nat
      reads this
    {
      |items|
    }

    /** `is_empty()` holds exactly when `size() == 0`. */
    function IsEmpty(): (empty: bool)
      reads this
      ensures empty <==> Size() == 0
    {
      items == []
    }

    method Pause()
      modifies this
      ensures paused && items == old(items)
    {
      paused := true;
    }

    method Resume()
      modifies this
      ensures !paused && items == old(items)
    {
      paused := false;
    }
  }

  // ---------------------------------------------------------------------------
  // Properties

  /** `enqueue` accepts a request exactly when it is well formed; every rejection is a `ValueError` but the non-dict case. */
  lemma CheckRequestAccepts(request: Value)
    ensures CheckRequest(request) == Pass <==> WellFormedRequest(request)
    ensures request.Dict? && CheckRequest(request).Fail? ==> CheckRequest(request).error.ValueError?
  {
  }

  /** Requests come out in the order they went in, and a rejected request leaves no trace. */
  method FifoOrder(a: Value, b: Value, bad: Value) returns (first: Option<Value>, second: Option<Value>, third: Option<Value>)
    requires WellFormedRequest(a) && WellFormedRequest(b) && !WellFormedRequest(bad)
    ensures first == Some(a) && second == Some(b) && third == None
  {
    CheckRequestAccepts(a);
    CheckRequestAccepts(b);
    CheckRequestAccepts(bad);
    var q := new TransmissionQueue();
    var _ := q.Enqueue(a);
    var _ := q.Enqueue(bad);
    var _ := q.Enqueue(b);
    first := q.Dequeue();
    second := q.Dequeue();
    third := q.Dequeue();
  }

  /** Pausing withholds the head without losing it: after `resume`, `dequeue` returns the same request. */
  method PauseKeepsHead(a: Value) returns (whilePaused: Option<Value>, afterResume: Option<Value>, size: nat)
    requires WellFormedRequest(a)
    ensures whilePaused == None && afterResume == Some(a) && size == 0
  {
    CheckRequestAccepts(a);
    var q := new TransmissionQueue();
    var _ := q.Enqueue(a);
    q.Pause();
    whilePaused := q.Dequeue();
    q.Resume();
    afterResume := q.Dequeue();
    size := q.Size();
  }
}
