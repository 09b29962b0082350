/**
 * The integer skeleton of the 2-FSK modulator: how many samples each bit gets and which of
 * the two tone frequencies every sample is generated at. The phase accumulation and the
 * complex samples themselves are floating-point work outside this model.
 */
module Modulation {
  import opened Wrappers
  import opened Bits

  /** The tone of one bit: `deviation_hz if bit else -deviation_hz`. */
  function BitFrequency(bit: Bit, deviation: int): (f: int)
    ensures bit == 1 ==> f == deviation
    ensures bit == 0 ==> f == -deviation
  {
    if bit == 1 then deviation else -deviation
  }

  /** `int(sample_rate_hz / baud_rate)` for a whole-hertz sample rate; a zero rate divides by zero. */
  function SamplesPerBit(sampleRateHz: nat, baud: nat): (r: Result<nat>)
    ensures baud == 0 <==> r.Err?
    ensures r.Ok? ==> r.value * baud <= sampleRateHz < (r.value + 1) * baud
  {
    if baud == 0 then Err(OtherError("float division by zero")) else Ok(sampleRateHz / baud)
  }

  /**
   * The phase step `2.0 * math.pi / sample_rate_hz` of `_modulate_fsk`: only whether the
   * division raises is modelled, and it raises exactly for a zero sample rate.
   */
  function PhaseScale(sampleRateHz: nat): (r: Outcome)
    ensures r.Fail? <==> sampleRateHz == 0
  {
    if sampleRateHz == 0 then Fail(OtherError("float division by zero")) else Pass
  }

  /** The tone of every sample: `spb` samples per bit, in bit order. */
  function Frequencies(bits: seq<Bit>, spb: nat, deviation: int): (fs: seq<int>)
  {
    if |bits| == 0 then []
    else Frequencies(bits[..|bits| - 1], spb, deviation) + seq(spb, _ => BitFrequency(bits[|bits| - 1], deviation))
  }

  /**
   * The sample loop of `_modulate_fsk`: a preallocated buffer of `spb * len(bits)` samples,
   * filled in order through a running index, each sample at the tone of its bit.
   */
  method ModulateFsk(bits: seq<Bit>, spb: nat, deviation: int) returns (samples: array<int>)
    ensures samples[..] == Frequencies(bits, spb, deviation)
  {
    FrequenciesLength(bits, spb, deviation);
    samples := new int[spb * |bits|];
    var idx := 0;
    var k := 0;
    while k < |bits|
      invariant k <= |bits|
      invariant idx == |Frequencies(bits[..k], spb, deviation)| <= samples.Length
      invariant samples[..idx] == Frequencies(bits[..k], spb, deviation)
    {
      var freq := BitFrequency(bits[k], deviation);
      PrefixFits(bits, spb, deviation, k);
      ghost var before := samples[..idx];
      var m := 0;
      while m < spb
        invariant m <= spb && idx == |before| + m <= samples.Length
        invariant samples[..idx] == before + seq(m, _ => freq)
      {
        samples[idx] := freq;
        assert samples[..idx + 1] == samples[..idx] + [freq];
        assert seq(m + 1, _ => freq) == seq(m, _ => freq) + [freq];
        idx := idx + 1;
        m := m + 1;
      }
      assert bits[..k + 1][..k] == bits[..k];
      k := k + 1;
    }
    assert bits[..k] == bits;
    assert samples[..] == samples[..idx];
  }

  // ---------------------------------------------------------------------------
  // Properties

  /** `total_samples = samples_per_bit * len(bits)`. */
  lemma {:induction false} FrequenciesLength(bits: seq<Bit>, spb: nat, deviation: int)
    ensures |Frequencies(bits, spb, deviation)| == spb * |bits|
    decreases |bits|
  {
    if |bits| > 0 {
      FrequenciesLength(bits[..|bits| - 1], spb, deviation);
      assert spb * |bits| == spb * (|bits| - 1) + spb;
    }
  }

  lemma PrefixFits(bits: seq<Bit>, spb: nat, deviation: int, k: nat)
    requires k < |bits|
    ensures |Frequencies(bits[..k], spb, deviation)| + spb <= spb * |bits|
  {
    FrequenciesLength(bits[..k], spb, deviation);
    assert spb * k + spb == spb * (k + 1) <= spb * |bits|;
  }

  lemma FrequenciesPrefix(bits: seq<Bit>, spb: nat, deviation: int, i: nat)
    requires 0 < |bits| && i < spb * (|bits| - 1)
    ensures i < |Frequencies(bits[..|bits| - 1], spb, deviation)| <= |Frequencies(bits, spb, deviation)|
    ensures Frequencies(bits, spb, deviation)[i] == Frequencies(bits[..|bits| - 1], spb, deviation)[i]
  {
    FrequenciesLength(bits[..|bits| - 1], spb, deviation);
  }

  lemma MulMono(c: nat, a: nat, b: nat)
    requires a <= b
    ensures c * a <= c * b
  {
    assert c * b - c * a == c * (b - a);
  }

  /** If `spb * q <= i < spb * (q + 1)` then `i / spb == q`. */
  lemma DivBetween(i: nat, spb: nat, q: nat)
    requires spb * q <= i < spb * (q + 1)
    ensures i / spb == q
  {
    var d := i / spb;
    assert i == spb * d + i % spb;
    if d < q {
      MulMono(spb, d + 1, q);
    } else if d > q {
      MulMono(spb, q + 1, d);
    }
  }

  lemma LastRun(n: nat, spb: nat, i: nat)
    requires 0 < n && spb * (n - 1) <= i < spb * n
    ensures i / spb == n - 1
  {
    DivBetween(i, spb, n - 1);
  }

  lemma EarlierRun(n: nat, spb: nat, i: nat)
    requires 0 < n && i < spb * (n - 1)
    ensures i / spb < n - 1
  {
    var d := i / spb;
    assert i == spb * d + i % spb;
    if d >= n - 1 {
      MulMono(spb, n - 1, d);
    }
  }

  /** Sample `i` is generated at the tone of bit `i / samples_per_bit`; a one bit gives `+deviation`. */
  lemma {:induction false} FrequencyAt(bits: seq<Bit>, spb: nat, deviation: int, i: nat)
    requires i < spb * |bits|
    ensures i < |Frequencies(bits, spb, deviation)|
    ensures i / spb < |bits|
    ensures Frequencies(bits, spb, deviation)[i] == BitFrequency(bits[i / spb], deviation)
    decreases |bits|
  {
    FrequenciesLength(bits, spb, deviation);
    var n := |bits|;
    var init := bits[..n - 1];
    FrequenciesLength(init, spb, deviation);
    if i < spb * (n - 1) {
      FrequenciesPrefix(bits, spb, deviation, i);
      EarlierRun(n, spb, i);
      FrequencyAt(init, spb, deviation, i);
    } else {
      LastRun(n, spb, i);
    }
  }
}
