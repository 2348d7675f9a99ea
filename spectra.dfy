/**
  Real-valued spectra as the two monitors use them: numpy's element-wise
  sum, scaling and addition of 1-D arrays, normalisation by the array's own
  sum, and the band power read off a frequency axis with a boolean mask.
  Everything is over `real`; floating-point rounding and NaN are not modelled.
 */
module Spectra {

  /** Absolute value. */
  function Abs(x: real): real
  {
    if x < 0.0 then -x else x
  }

  /** Total of a 1-D array. */
  function Sum(s: seq<real>): real
  {
    if |s| == 0 then 0.0 else s[0] + Sum(s[1..])
  }

  predicate Nonneg(s: seq<real>)
  {
    forall i :: 0 <= i < |s| ==> s[i] >= 0.0
  }

  /** Every entry multiplied by the scalar c. */
  function Scale(s: seq<real>, c: real): (r: seq<real>)
    ensures |r| == |s|
    ensures forall i :: 0 <= i < |s| ==> r[i] == s[i] * c
  {
    if |s| == 0 then [] else [s[0] * c] + Scale(s[1..], c)
  }

  /** Entry-wise sum of two arrays of the same shape. */
  function AddSeq(a: seq<real>, b: seq<real>): (r: seq<real>)
    requires |a| == |b|
    ensures |r| == |a|
    ensures forall i :: 0 <= i < |a| ==> r[i] == a[i] + b[i]
  {
    if |a| == 0 then [] else [a[0] + b[0]] + AddSeq(a[1..], b[1..])
  }

  /** An array divided by its own total. */
  function Normalize(s: seq<real>): (r: seq<real>)
    requires Sum(s) != 0.0
    ensures |r| == |s|
    ensures forall i :: 0 <= i < |s| ==> r[i] == s[i] / Sum(s)
  {
    Scale(s, 1.0 / Sum(s))
  }

  /**
    Band power: the total of the entries of m whose frequency in f lies
    strictly inside the open interval (low, high), both ends excluded.
   */
  function BandPower(f: seq<real>, m: seq<real>, low: real, high: real): (r: real)
    requires |f| == |m|
    ensures Nonneg(m) ==> 0.0 <= r <= Sum(m)
  {
    if |f| == 0 then 0.0
    else (if low < f[0] < high then m[0] else 0.0) + BandPower(f[1..], m[1..], low, high)
  }

  /**
    What the FFT stage hands over for one processing tick: the number of
    samples n in the drained list, the frequency axis of the real FFT and the
    absolute values of its coefficients, both still holding the
    zero-frequency bin at index 0.
   */
  datatype Window = Window(n: nat, freqs: seq<real>, mags: seq<real>)

  /** The shapes numpy's rfft and rfftfreq produce for n >= 1 samples. */
  predicate WellFormed(w: Window)
  {
    && w.n >= 1
    && |w.freqs| == w.n / 2 + 1
    && |w.mags| == |w.freqs|
    && Nonneg(w.mags)
  }

  lemma {:induction false} SumNonneg(s: seq<real>)
    requires Nonneg(s)
    ensures Sum(s) >= 0.0
  {
    if |s| > 0 {
      SumNonneg(s[1..]);
    }
  }

  lemma {:induction false} SumScale(s: seq<real>, c: real)
    ensures Sum(Scale(s, c)) == c * Sum(s)
  {
    if |s| > 0 {
      assert Scale(s, c)[1..] == Scale(s[1..], c);
      SumScale(s[1..], c);
    }
  }

  lemma {:induction false} SumAdd(a: seq<real>, b: seq<real>)
    requires |a| == |b|
    ensures Sum(AddSeq(a, b)) == Sum(a) + Sum(b)
  {
    if |a| > 0 {
      assert AddSeq(a, b)[1..] == AddSeq(a[1..], b[1..]);
      SumAdd(a[1..], b[1..]);
    }
  }

  /** In a non-negative array no single entry exceeds the total. */
  lemma {:induction false} EntryAtMostSum(s: seq<real>, i: int)
    requires Nonneg(s) && 0 <= i < |s|
    ensures s[i] <= Sum(s)
  {
    if i == 0 {
      SumNonneg(s[1..]);
    } else {
      EntryAtMostSum(s[1..], i - 1);
    }
  }

  /** The sum of `s[1:]` is the sum of `s` less its first entry. */
  lemma SumTail(s: seq<real>)
    requires |s| > 0
    ensures Sum(s[1..]) == Sum(s) - s[0]
  {
  }

  /**
    Dividing a non-negative array by its positive sum gives a distribution:
    every entry in [0, 1] and total mass exactly 1.
   */
  lemma NormalizeIsDistribution(s: seq<real>)
    requires Nonneg(s) && Sum(s) > 0.0
    ensures Nonneg(Normalize(s))
    ensures forall i :: 0 <= i < |s| ==> Normalize(s)[i] <= 1.0
    ensures Sum(Normalize(s)) == 1.0
  {
    var total := Sum(s);
    NormalizeSumsToOne(s);
    forall i | 0 <= i < |s|
      ensures 0.0 <= Normalize(s)[i] <= 1.0
    {
      EntryAtMostSum(s, i);
      DivideWithinUnit(s[i], total);
    }
  }

  lemma NormalizeSumsToOne(s: seq<real>)
    requires Sum(s) != 0.0
    ensures Sum(Normalize(s)) == 1.0
  {
    var c := 1.0 / Sum(s);
    SumScale(s, c);
    ReciprocalTimes(Sum(s));
  }

  lemma ReciprocalTimes(total: real)
    requires total != 0.0
    ensures (1.0 / total) * total == 1.0
  {
  }

  lemma DivideWithinUnit(x: real, total: real)
    requires 0.0 <= x <= total && total > 0.0
    ensures 0.0 <= x / total <= 1.0
  {
  }

  /** Renormalising an array that already sums to 1 leaves it as it is. */
  lemma NormalizeIdempotent(s: seq<real>)
    requires Sum(s) == 1.0
    ensures Normalize(s) == s
  {
  }

  /** Band power splits over a concatenation of frequency ranges. */
  lemma {:induction false} BandPowerAppend(f1: seq<real>, m1: seq<real>, f2: seq<real>, m2: seq<real>, low: real, high: real)
    requires |f1| == |m1| && |f2| == |m2|
    ensures BandPower(f1 + f2, m1 + m2, low, high) == BandPower(f1, m1, low, high) + BandPower(f2, m2, low, high)
  {
    if |f1| > 0 {
      assert (f1 + f2)[1..] == f1[1..] + f2;
      assert (m1 + m2)[1..] == m1[1..] + m2;
      BandPowerAppend(f1[1..], m1[1..], f2, m2, low, high);
    } else {
      assert f1 + f2 == f2 && m1 + m2 == m2;
    }
  }

  /**
    Entries whose frequency is not strictly inside (low, high), the two
    end points included, contribute nothing.
   */
  lemma {:induction false} BandPowerOutside(f: seq<real>, m: seq<real>, low: real, high: real)
    requires |f| == |m|
    requires forall i :: 0 <= i < |f| ==> f[i] <= low || f[i] >= high
    ensures BandPower(f, m, low, high) == 0.0
  {
    if |f| > 0 {
      BandPowerOutside(f[1..], m[1..], low, high);
    }
  }

  /** When every frequency lies strictly inside the band, the band power is the whole mass. */
  lemma {:induction false} BandPowerInside(f: seq<real>, m: seq<real>, low: real, high: real)
    requires |f| == |m|
    requires forall i :: 0 <= i < |f| ==> low < f[i] < high
    ensures BandPower(f, m, low, high) == Sum(m)
  {
    if |f| > 0 {
      BandPowerInside(f[1..], m[1..], low, high);
    }
  }
}
