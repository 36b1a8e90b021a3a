/**
 The extension function calcAvgDevMEX: `adev = calcAvgDevMEX(input)` returns,
 for every column (channel) of an `nSamples x nChannels` matrix, the average
 absolute deviation of that column around its mean.

 The matrix is the host's column-major buffer, an array of `nSamples *
 nChannels` reals; the result is a freshly allocated, zero-filled array of
 `nChannels` reals that the kernel fills in place, one channel at a time, in
 two passes over the channel: one for the mean, one for the deviations.
 */
module CalcAvgDevMex {
  import opened AverageDeviation

  /** What one call of the extension leaves behind. */
  datatype MexOutcome =
    | UsageShown                  // wrong argument count: usage text printed, no output
    | InputRejected               // not a real, dense double matrix: the call aborts
    | Returned(adev: array<real>) // the [1 x nChannels] output row

  /** First pass over channel `hh`: `s` accumulates the column left to right
      and `mean` is that sum divided by the number of samples. */
  method ColumnMean(input: array<real>, nSamples: nat, nChannels: nat, hh: nat) returns (s: real, mean: real)
    requires nSamples >= 1 && input.Length == nSamples * nChannels && hh < nChannels
    ensures s == Sum(Column(input[..], nSamples, nChannels, hh))
    ensures mean == s / nSamples as real
    ensures mean == Mean(Column(input[..], nSamples, nChannels, hh))
  {
    ghost var col := Column(input[..], nSamples, nChannels, hh);
    s := 0.0;
    for ii := 0 to nSamples
      invariant s == Sum(col[..ii])
    {
      ColumnAt(input[..], nSamples, nChannels, hh, ii);
      assert col[..ii + 1][..ii] == col[..ii];
      s := s + input[ii + hh * nSamples];
    }
    assert col[..nSamples] == col;
    mean := s / nSamples as real;
  }

  /** One iteration of the channel loop: the mean pass, then `adev[hh] +=
      |x - mean|` for every sample `x` of the column, then `adev[hh] /=
      nSamples`. The accumulation starts from whatever `adev[hh]` held, and
      no other entry of `adev` changes. */
  method ProcessChannel(input: array<real>, nSamples: nat, nChannels: nat, hh: nat, adev: array<real>)
    requires nSamples >= 1 && input.Length == nSamples * nChannels && hh < nChannels
    requires adev.Length == nChannels && adev != input
    modifies adev
    ensures adev[hh] == (old(adev[hh]) + SumAbsDev(Column(input[..], nSamples, nChannels, hh),
                                                   Mean(Column(input[..], nSamples, nChannels, hh)))) / nSamples as real
    ensures forall k :: 0 <= k < adev.Length && k != hh ==> adev[k] == old(adev[k])
  {
    ghost var col := Column(input[..], nSamples, nChannels, hh);
    var s, mean := ColumnMean(input, nSamples, nChannels, hh);
    // The second loop reuses `s` for the current deviation, so from here on
    // `s` no longer holds the column sum.
    for ii := 0 to nSamples
      invariant adev[hh] == old(adev[hh]) + SumAbsDev(col[..ii], mean)
      invariant forall k :: 0 <= k < adev.Length && k != hh ==> adev[k] == old(adev[k])
    {
      ColumnAt(input[..], nSamples, nChannels, hh, ii);
      assert col[..ii + 1][..ii] == col[..ii];
      s := input[ii + hh * nSamples] - mean;
      adev[hh] := adev[hh] + Abs(s);
    }
    assert col[..nSamples] == col;
    adev[hh] := adev[hh] / nSamples as real;
  }

  /** The kernel: allocates the zero-filled output row and processes every
      channel. The result has one entry per channel, entry `hh` is the
      average deviation of column `hh`, and every entry is non-negative. */
  method AverageDeviations(input: array<real>, nSamples: nat, nChannels: nat) returns (adev: array<real>)
    requires (nSamples >= 1 || nChannels == 0) && input.Length == nSamples * nChannels
    ensures fresh(adev)
    ensures adev.Length == nChannels
    ensures adev[..] == AvgDevs(input[..], nSamples, nChannels)
    ensures forall hh :: 0 <= hh < nChannels ==> adev[hh] >= 0.0
  {
    adev := new real[nChannels](_ => 0.0);
    for hh := 0 to nChannels
      invariant forall k :: 0 <= k < hh ==> adev[k] == AvgDev(Column(input[..], nSamples, nChannels, k))
      invariant forall k :: hh <= k < nChannels ==> adev[k] == 0.0
    {
      ProcessChannel(input, nSamples, nChannels, hh, adev);
    }
    AvgDevsNonNegative(input[..], nSamples, nChannels);
  }

  /** The entry point. With fewer than one input or more than one requested
      output it shows the usage text and produces nothing; an input that is
      not a real, dense double matrix aborts the call; otherwise it returns
      the kernel's output row. `isRealDoubleMatrix` stands for the host's
      type queries on the input. */
  method MexFunction(nlhs: int, nrhs: int, isRealDoubleMatrix: bool,
                     input: array<real>, nSamples: nat, nChannels: nat) returns (out: MexOutcome)
    requires input.Length == nSamples * nChannels
    requires nrhs >= 1 && nlhs <= 1 && isRealDoubleMatrix ==> (nSamples >= 1 || nChannels == 0)
    ensures out.UsageShown? <==> (nrhs < 1 || nlhs > 1)
    ensures out.InputRejected? <==> (nrhs >= 1 && nlhs <= 1 && !isRealDoubleMatrix)
    ensures out.Returned? ==> fresh(out.adev) && out.adev[..] == AvgDevs(input[..], nSamples, nChannels)
  {
    if nrhs < 1 || nlhs > 1 {
      return UsageShown;
    }
    if !isRealDoubleMatrix {
      return InputRejected;
    }
    var adev := AverageDeviations(input, nSamples, nChannels);
    return Returned(adev);
  }
}
