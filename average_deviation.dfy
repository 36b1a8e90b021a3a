/**
 The average absolute deviation of the channels of a sample table, over the
 mathematical reals. A table of `nSamples` rows (samples) and `nChannels`
 columns (channels) is a flat sequence stored column by column: row `ii` of
 column `hh` is at offset `ii + hh * nSamples`.

 This module holds the specification that the imperative kernel in module
 CalcAvgDevMex is proved against, and the properties the statistic has.
 */
module AverageDeviation {

  /** Absolute value (the C library's `fabs`). */
  function Abs(x: real): (r: real)
    ensures r >= 0.0
    ensures r == x || r == -x
  {
    if x < 0.0 then -x else x
  }

  /** Sum of `s`, accumulated left to right, index 0 first. */
  function Sum(s: seq<real>): (r: real)
  {
    if |s| == 0 then 0.0 else Sum(s[..|s| - 1]) + s[|s| - 1]
  }

  /** Sum of the absolute deviations of the elements of `s` from `m`,
      accumulated left to right. */
  function SumAbsDev(s: seq<real>, m: real): (r: real)
  {
    if |s| == 0 then 0.0 else SumAbsDev(s[..|s| - 1], m) + Abs(s[|s| - 1] - m)
  }

  /** Arithmetic mean of a non-empty sample sequence. */
  function Mean(s: seq<real>): (r: real)
    requires |s| >= 1
  {
    Sum(s) / |s| as real
  }

  /** Average absolute deviation of a non-empty sample sequence around its mean. */
  function AvgDev(s: seq<real>): (r: real)
    requires |s| >= 1
  {
    SumAbsDev(s, Mean(s)) / |s| as real
  }

  /** Every offset the kernel reads, `ii + hh * nSamples`, lies inside the table,
      and a whole column ends no later than the table does. */
  lemma OffsetInBounds(nSamples: nat, nChannels: nat, ii: nat, hh: nat)
    requires ii < nSamples && hh < nChannels
    ensures 0 <= ii + hh * nSamples < nSamples * nChannels
    ensures hh * nSamples + nSamples <= nSamples * nChannels
  {
    ColumnEnd(nSamples, nChannels, hh);
  }

  /** Column `hh` ends at offset `(hh + 1) * nSamples`, within the table. */
  lemma ColumnEnd(nSamples: nat, nChannels: nat, hh: nat)
    requires hh < nChannels
    ensures hh * nSamples + nSamples <= nSamples * nChannels
  {
    MulLeqRight(hh + 1, nChannels, nSamples);
  }

  lemma MulLeqRight(a: nat, b: nat, n: nat)
    requires a <= b
    ensures a * n <= b * n
  {
  }

  /** Column `hh` of a column-major table: the `nSamples` entries starting at
      offset `hh * nSamples`. */
  function Column(input: seq<real>, nSamples: nat, nChannels: nat, hh: nat): (col: seq<real>)
    requires |input| == nSamples * nChannels && hh < nChannels
    ensures |col| == nSamples
  {
    ColumnEnd(nSamples, nChannels, hh);
    input[hh * nSamples .. hh * nSamples + nSamples]
  }

  /** Row `ii` of column `hh` is the table entry at offset `ii + hh * nSamples`. */
  lemma ColumnAt(input: seq<real>, nSamples: nat, nChannels: nat, hh: nat, ii: nat)
    requires |input| == nSamples * nChannels && hh < nChannels && ii < nSamples
    ensures ii + hh * nSamples < |input|
    ensures Column(input, nSamples, nChannels, hh)[ii] == input[ii + hh * nSamples]
  {
    ColumnEnd(nSamples, nChannels, hh);
  }

  /** The statistic of every channel: entry `hh` is the average deviation of
      column `hh`, one entry per channel. A table without channels has an empty
      row whatever its number of samples. */
  function AvgDevs(input: seq<real>, nSamples: nat, nChannels: nat): (r: seq<real>)
    requires (nSamples >= 1 || nChannels == 0) && |input| == nSamples * nChannels
    ensures |r| == nChannels
  {
    seq(nChannels, hh requires 0 <= hh < nChannels => AvgDev(Column(input, nSamples, nChannels, hh)))
  }

  // ---------------------------------------------------------------------------
  // One output entry per channel, each non-negative

  lemma {:induction false} SumAbsDevNonNegative(s: seq<real>, m: real)
    ensures SumAbsDev(s, m) >= 0.0
  {
    if |s| > 0 {
      SumAbsDevNonNegative(s[..|s| - 1], m);
    }
  }

  lemma AvgDevNonNegative(s: seq<real>)
    requires |s| >= 1
    ensures AvgDev(s) >= 0.0
  {
    SumAbsDevNonNegative(s, Mean(s));
  }

  lemma AvgDevsNonNegative(input: seq<real>, nSamples: nat, nChannels: nat)
    requires (nSamples >= 1 || nChannels == 0) && |input| == nSamples * nChannels
    ensures forall hh :: 0 <= hh < nChannels ==> AvgDevs(input, nSamples, nChannels)[hh] >= 0.0
  {
    forall hh | 0 <= hh < nChannels
      ensures AvgDevs(input, nSamples, nChannels)[hh] >= 0.0
    {
      AvgDevNonNegative(Column(input, nSamples, nChannels, hh));
    }
  }

  // ---------------------------------------------------------------------------
  // A channel whose samples are all equal has average deviation zero

  lemma {:induction false} SumConstant(s: seq<real>, v: real)
    requires forall i :: 0 <= i < |s| ==> s[i] == v
    ensures Sum(s) == |s| as real * v
  {
    if |s| > 0 {
      SumConstant(s[..|s| - 1], v);
    }
  }

  lemma {:induction false} SumAbsDevAtConstant(s: seq<real>, v: real)
    requires forall i :: 0 <= i < |s| ==> s[i] == v
    ensures SumAbsDev(s, v) == 0.0
  {
    if |s| > 0 {
      SumAbsDevAtConstant(s[..|s| - 1], v);
    }
  }

  lemma ConstantColumnMean(s: seq<real>, v: real)
    requires |s| >= 1
    requires forall i :: 0 <= i < |s| ==> s[i] == v
    ensures Mean(s) == v
  {
    SumConstant(s, v);
  }

  lemma ConstantColumnZero(s: seq<real>, v: real)
    requires |s| >= 1
    requires forall i :: 0 <= i < |s| ==> s[i] == v
    ensures AvgDev(s) == 0.0
  {
    ConstantColumnMean(s, v);
    SumAbsDevAtConstant(s, v);
  }

  // ---------------------------------------------------------------------------
  // Translation invariance: adding a constant to every sample changes nothing

  /** Every sample of `s` moved by `d`. */
  function Shift(s: seq<real>, d: real): (r: seq<real>)
    ensures |r| == |s|
    ensures forall i :: 0 <= i < |s| ==> r[i] == s[i] + d
  {
    seq(|s|, i requires 0 <= i < |s| => s[i] + d)
  }

  lemma {:induction false} SumShift(s: seq<real>, d: real)
    ensures Sum(Shift(s, d)) == Sum(s) + |s| as real * d
  {
    if |s| > 0 {
      var k := |s| - 1;
      assert Shift(s, d)[..k] == Shift(s[..k], d);
      SumShift(s[..k], d);
    }
  }

  lemma {:induction false} SumAbsDevShift(s: seq<real>, m: real, d: real)
    ensures SumAbsDev(Shift(s, d), m + d) == SumAbsDev(s, m)
  {
    if |s| > 0 {
      var k := |s| - 1;
      assert Shift(s, d)[..k] == Shift(s[..k], d);
      SumAbsDevShift(s[..k], m, d);
    }
  }

  lemma MeanShift(s: seq<real>, d: real)
    requires |s| >= 1
    ensures Mean(Shift(s, d)) == Mean(s) + d
  {
    var n := |s| as real;
    SumShift(s, d);
    DivAdd(Sum(s), n * d, n);
    MulDivCancel(n, d);
    calc {
      Mean(Shift(s, d));
    ==
      (Sum(s) + n * d) / n;
    ==
      Sum(s) / n + (n * d) / n;
    ==
      Sum(s) / n + d;
    }
  }

  lemma DivAdd(a: real, b: real, n: real)
    requires n > 0.0
    ensures (a + b) / n == a / n + b / n
  {
  }

  lemma MulDivCancel(n: real, d: real)
    requires n > 0.0
    ensures (n * d) / n == d
  {
  }

  lemma AvgDevShift(s: seq<real>, d: real)
    requires |s| >= 1
    ensures AvgDev(Shift(s, d)) == AvgDev(s)
  {
    MeanShift(s, d);
    SumAbsDevShift(s, Mean(s), d);
  }

  /** Adding `d` to every entry of the table leaves every channel's average
      deviation unchanged. */
  lemma TranslationInvariant(input: seq<real>, nSamples: nat, nChannels: nat, d: real)
    requires (nSamples >= 1 || nChannels == 0) && |input| == nSamples * nChannels
    ensures AvgDevs(Shift(input, d), nSamples, nChannels) == AvgDevs(input, nSamples, nChannels)
  {
    var shifted := Shift(input, d);
    forall hh | 0 <= hh < nChannels
      ensures AvgDevs(shifted, nSamples, nChannels)[hh] == AvgDevs(input, nSamples, nChannels)[hh]
    {
      var col := Column(input, nSamples, nChannels, hh);
      ColumnShift(input, nSamples, nChannels, hh, d);
      AvgDevShift(col, d);
    }
  }

  /** Column `hh` of the shifted table is column `hh` shifted. */
  lemma ColumnShift(input: seq<real>, nSamples: nat, nChannels: nat, hh: nat, d: real)
    requires |input| == nSamples * nChannels && hh < nChannels
    ensures Column(Shift(input, d), nSamples, nChannels, hh) == Shift(Column(input, nSamples, nChannels, hh), d)
  {
    ColumnEnd(nSamples, nChannels, hh);
    var start := hh * nSamples;
    var shifted := Shift(input, d);
    assert Column(input, nSamples, nChannels, hh) == input[start .. start + nSamples];
    assert Column(shifted, nSamples, nChannels, hh) == shifted[start .. start + nSamples];
    assert shifted[start .. start + nSamples] == Shift(input[start .. start + nSamples], d);
  }

  // ---------------------------------------------------------------------------
  // The statistic is not scale invariant

  /** Doubling the samples of [0, 2] doubles its average deviation. */
  lemma NotScaleInvariant()
    ensures AvgDev([0.0, 2.0]) == 1.0
    ensures AvgDev([0.0, 4.0]) == 2.0
  {
    assert [0.0, 2.0][..1] == [0.0] && [0.0, 4.0][..1] == [0.0];
    assert Sum([0.0]) == 0.0;
    assert Sum([0.0, 2.0]) == 2.0 && Sum([0.0, 4.0]) == 4.0;
    assert Mean([0.0, 2.0]) == 1.0 && Mean([0.0, 4.0]) == 2.0;
    assert SumAbsDev([0.0], 1.0) == 1.0 && SumAbsDev([0.0], 2.0) == 2.0;
    assert SumAbsDev([0.0, 2.0], 1.0) == 2.0 && SumAbsDev([0.0, 4.0], 2.0) == 4.0;
  }

  // ---------------------------------------------------------------------------
  // Channels are independent of each other

  /** Overwriting an entry of the table outside column `hh` leaves entry `hh`
      of the result unchanged. */
  lemma UpdateOtherColumn(input: seq<real>, nSamples: nat, nChannels: nat, k: nat, v: real, hh: nat)
    requires nSamples >= 1 && |input| == nSamples * nChannels
    requires hh < nChannels && k < |input|
    requires k / nSamples != hh
    ensures AvgDevs(input[k := v], nSamples, nChannels)[hh] == AvgDevs(input, nSamples, nChannels)[hh]
  {
    ColumnEnd(nSamples, nChannels, hh);
    var start := hh * nSamples;
    if start <= k < start + nSamples {
      DivOfOffset(nSamples, k - start, hh);
    }
    assert Column(input[k := v], nSamples, nChannels, hh) == input[k := v][start .. start + nSamples];
    assert input[k := v][start .. start + nSamples] == input[start .. start + nSamples];
  }

  /** The offset of row `ii` of column `hh` belongs to column `hh`. */
  lemma DivOfOffset(nSamples: nat, ii: nat, hh: nat)
    requires ii < nSamples
    ensures (ii + hh * nSamples) / nSamples == hh
  {
    var q := (ii + hh * nSamples) / nSamples;
    var r := (ii + hh * nSamples) % nSamples;
    assert q * nSamples + r == hh * nSamples + ii;
    if q > hh {
      MulLeqRight(hh + 1, q, nSamples);
    } else if q < hh {
      MulLeqRight(q + 1, hh, nSamples);
    }
  }

  // ---------------------------------------------------------------------------
  // A worked example

  /** The column [1, 2, 3, 4, 5] has mean 3 and average deviation 6/5, a
      constant column has average deviation 0. */
  lemma TwoChannelExample()
    ensures AvgDevs([1.0, 2.0, 3.0, 4.0, 5.0, 10.0, 10.0, 10.0, 10.0, 10.0], 5, 2) == [1.2, 0.0]
  {
    var input := [1.0, 2.0, 3.0, 4.0, 5.0, 10.0, 10.0, 10.0, 10.0, 10.0];
    var c0 := Column(input, 5, 2, 0);
    var c1 := Column(input, 5, 2, 1);
    assert c0 == [1.0, 2.0, 3.0, 4.0, 5.0];
    assert [1.0, 2.0][..1] == [1.0];
    assert [1.0, 2.0, 3.0][..2] == [1.0, 2.0];
    assert [1.0, 2.0, 3.0, 4.0][..3] == [1.0, 2.0, 3.0];
    assert c0[..4] == [1.0, 2.0, 3.0, 4.0];
    assert Sum([1.0]) == 1.0;
    assert Sum([1.0, 2.0]) == 3.0;
    assert Sum([1.0, 2.0, 3.0]) == 6.0;
    assert Sum([1.0, 2.0, 3.0, 4.0]) == 10.0;
    assert Sum(c0) == 15.0;
    assert Mean(c0) == 3.0;
    assert SumAbsDev([1.0], 3.0) == 2.0;
    assert SumAbsDev([1.0, 2.0], 3.0) == 3.0;
    assert SumAbsDev([1.0, 2.0, 3.0], 3.0) == 3.0;
    assert SumAbsDev([1.0, 2.0, 3.0, 4.0], 3.0) == 4.0;
    assert SumAbsDev(c0, 3.0) == 6.0;
    assert AvgDev(c0) == 1.2;
    ConstantColumnZero(c1, 10.0);
  }
}
