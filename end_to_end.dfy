/**
 * How the pieces meet: the request the message service enqueues passes the queue's check,
 * reaches the worker whole, and has its recipients served in the order the service stored
 * them; and the service's RIC check admits RICs the encoder then refuses.
 */
module EndToEnd {
  import opened Wrappers
  import opened Values
  import Config
  import Validation
  import Queue
  import MessageService
  import Worker
  import Encoder

  /** `float()` accepts the setting: it is absent (the default is used), an int or a float. */
  predicate NumericOrAbsent(fields: Config.Tree, key: string)
  {
    key in fields ==> fields[key].Int? || fields[key].Float?
  }

  /** The worker's SDR settings are readable: the `system` section is absent or a dict of numbers. */
  predicate SystemNumeric(config: Config.Tree)
  {
    "system" !in config
    || (config["system"].Dict?
        && NumericOrAbsent(config["system"].fields, "sample_rate")
        && NumericOrAbsent(config["system"].fields, "if_gain")
        && NumericOrAbsent(config["system"].fields, "transmit_power"))
  }

  /** The shipped defaults give the worker readable settings. */
  lemma DefaultsNumeric()
    ensures SystemNumeric(Config.DefaultConfig)
  {
    Config.DefaultSystem();
    assert Config.SystemDefaults["sample_rate"] == Float(12.0);
    assert Config.SystemDefaults["if_gain"] == Int(40);
    assert Config.SystemDefaults["transmit_power"] == Int(10);
  }

  /** A request built by the service passes the queue's key and recipient checks. */
  lemma ServiceRequestQueued(m: MessageService.Message, pagerOf: string -> Option<nat>)
    ensures Queue.CheckRequest(MessageService.Request(m, pagerOf)) == Pass
  {
    MessageService.RequestWellFormed(m, pagerOf);
    Queue.CheckRequestAccepts(MessageService.Request(m, pagerOf));
  }

  /** The worker reads every field of such a request: the frequency, the baud rate and the recipient records arrive unchanged. */
  lemma ServiceRequestRead(m: MessageService.Message, pagerOf: string -> Option<nat>, config: Config.Tree,
                           parseFloat: string -> Result<real>)
    requires SystemNumeric(config)
    ensures var fields := Worker.RequestFields(MessageService.Request(m, pagerOf), config, parseFloat);
      && fields.Ok?
      && fields.value.frequency == m.frequency && fields.value.baudRate == m.baudRate
      && fields.value.recipients == List(MessageService.RecipientRecords(m.rics, pagerOf))
      && fields.value.text == Str(m.text)
  {
    SdrReadable(config, parseFloat);
  }

  lemma SdrReadable(config: Config.Tree, parseFloat: string -> Result<real>)
    requires SystemNumeric(config)
    ensures Worker.SdrSettings(config, parseFloat).Ok?
  {
  }

  /**
   * When every encode, configure and transmit succeeds, the worker serves the service's
   * recipients in the stored order — the i-th encoder call is for the i-th RIC — and
   * finishes with `success`.
   */
  lemma ServiceRequestServed(m: MessageService.Message, pagerOf: string -> Option<nat>, config: Config.Tree,
                             parseFloat: string -> Result<real>, attempts: nat -> Worker.Attempt, i: nat)
    requires SystemNumeric(config)
    requires forall j :: 0 <= j < |m.rics| ==> attempts(j) == Worker.Attempt(Pass, Pass, Pass)
    requires i < |m.rics|
    ensures var t := Worker.ProcessTrace(MessageService.Request(m, pagerOf), config, attempts, parseFloat);
      && t.Ok?
      && |t.value| == |Worker.Header| + 6 * |m.rics| + |Worker.SuccessTail|
      && t.value[|Worker.Header| + 6 * i] == Worker.EncodeCalled(Str(m.rics[i]))
      && t.value[|t.value| - 4] == Worker.StatusWritten("success", None)
  {
    ServiceRequestRead(m, pagerOf, config, parseFloat);
    var f := Worker.RequestFields(MessageService.Request(m, pagerOf), config, parseFloat).value;
    Worker.Processed(MessageService.Request(m, pagerOf), config, attempts, parseFloat, f);
    ServedTrace(f, MessageService.RecipientRecords(m.rics, pagerOf), attempts, i);
  }

  /** With every call succeeding, block `i` of the trace starts with the encoder call for recipient `i`. */
  lemma ServedTrace(f: Worker.Fields, rs: seq<Value>, attempts: nat -> Worker.Attempt, i: nat)
    requires f.recipients == List(rs)
    requires forall j :: 0 <= j < |rs| ==> rs[j].Dict? && attempts(j) == Worker.Attempt(Pass, Pass, Pass)
    requires i < |rs|
    ensures var t := Worker.Header + Worker.Body(f, attempts);
      && |t| == |Worker.Header| + 6 * |rs| + |Worker.SuccessTail|
      && t[|Worker.Header| + 6 * i] == Worker.EncodeCalled(Worker.RicOf(rs[i]))
      && t[|t| - 4] == Worker.StatusWritten("success", None)
  {
    Worker.AllPass(f, attempts);
    Worker.AllServedAt(rs, f, i);
    var served := Worker.AllServed(rs, f);
    assert served[6 * i] == served[6 * i..6 * i + 6][0];
  }

  /** Every RIC the service accepts is a well-formed RIC for the encoder: seven digits are within one to seven. */
  lemma AcceptedRicWellFormed(ric: string)
    requires Validation.ValidateRicFormat(ric)
    ensures Encoder.RicWellFormed(ric)
  {
  }

  /** The service's RIC check wants seven digits, but the encoder refuses RICs above 2,097,151: "9999999" passes one and fails the other. */
  lemma RicRangeGap(message: string)
    ensures Validation.ValidateRicFormat("9999999")
    ensures Encoder.ValidateInputs("9999999", message, "alphanumeric", 512) == Fail(Encoder.RicRangeError)
  {
    var ric := "9999999";
    assert AllDigits(ric) by {
      assert forall i :: 0 <= i < |ric| ==> ric[i] == '9';
    }
    assert DigitsValue("9") == 9 by { assert "9"[..0] == ""; }
    assert DigitsValue("99") == 99 by { assert "99"[..1] == "9"; }
    assert DigitsValue("999") == 999 by { assert "999"[..2] == "99"; }
    assert DigitsValue("9999") == 9999 by { assert "9999"[..3] == "999"; }
    assert DigitsValue("99999") == 99999 by { assert "99999"[..4] == "9999"; }
    assert DigitsValue("999999") == 999999 by { assert "999999"[..5] == "99999"; }
    assert ric[..6] == "999999";
  }
}
