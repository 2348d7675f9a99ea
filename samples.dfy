/**
  What the serial side hands to the live feed: a queue item carries the
  values `decode_output` extracted from one raw packet together with the
  packet's arrival time, and a feed sample carries that time and the mean of
  the decoded values, NaN entries ignored.
 */
module Samples {
  import opened Spectra

  /** One item of a monitor thread's data queue, with its payload already decoded. */
  datatype Packet = Packet(values: seq<real>, timestamp: real)

  /** A mean as numpy returns it: a number, or NaN for an empty array. */
  datatype Reading = Num(value: real) | NaN

  /** The timestamp/temperature record posted to the feed. */
  datatype Sample = Sample(timestamp: real, temperature: Reading)

  /**
    The NaN-ignoring mean of an array of decoded values, which are never NaN: NaN for
    the empty array, otherwise a value whose multiple by the length is the sum.
   */
  function NanMean(xs: seq<real>): (r: Reading)
    ensures r.NaN? <==> |xs| == 0
    ensures r.Num? ==> r.value * (|xs| as real) == Sum(xs)
  {
    if |xs| == 0 then NaN else Num(Sum(xs) / (|xs| as real))
  }

  /** The feed sample made from one queue item. */
  function ToSample(p: Packet): (r: Sample)
    ensures r.timestamp == p.timestamp
    ensures r.temperature.Num? <==> |p.values| > 0
  {
    Sample(p.timestamp, NanMean(p.values))
  }

  lemma {:induction false} SumBounds(xs: seq<real>, low: real, high: real)
    requires forall i :: 0 <= i < |xs| ==> low <= xs[i] <= high
    ensures low * (|xs| as real) <= Sum(xs) <= high * (|xs| as real)
  {
    if |xs| > 0 {
      SumBounds(xs[1..], low, high);
    }
  }

  /** The mean of a non-empty packet lies within the range of its decoded values. */
  lemma MeanWithinBounds(xs: seq<real>, low: real, high: real)
    requires |xs| > 0
    requires forall i :: 0 <= i < |xs| ==> low <= xs[i] <= high
    ensures NanMean(xs).Num? && low <= NanMean(xs).value <= high
  {
    SumBounds(xs, low, high);
    var k := |xs| as real;
    var v := NanMean(xs).value;
    assert v * k == Sum(xs);
    assert low * k <= v * k <= high * k;
  }
}
