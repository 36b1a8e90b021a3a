# calcAvgDevMEX in Dafny

A model of the MEX extension `calcAvgDevMEX` from the auditory front-end.
`adev = calcAvgDevMEX(input)` takes an `nSamples x nChannels` double matrix,
stored column by column, and returns a `1 x nChannels` row. Entry `hh` of that
row is the average absolute deviation of channel (column) `hh` around the
channel's mean.

The project has two modules:

- `AverageDeviation` (`average_deviation.dfy`) is the specification. It works
  over the mathematical reals. `Sum`, `SumAbsDev`, `Mean` and `AvgDev` are the
  per-channel statistic, accumulated left to right as the C loops do.
  `Column` reads channel `hh` at offsets `ii + hh * nSamples`. `AvgDevs` is
  the whole output row. Beside these are the lemmas about the statistic:
  non-negativity, zero for a constant channel, translation invariance,
  per-channel independence, and worked examples.
- `CalcAvgDevMex` (`calc_avg_dev_mex.dfy`) is the imperative kernel over arrays,
  with the same loops as `mexFunction`. `ColumnMean` is the mean pass.
  `ProcessChannel` runs one iteration of the channel loop: the mean pass, then
  `adev[hh] += |x - mean|` in place, then `adev[hh] /= nSamples`.
  `AverageDeviations` allocates the zero-filled output row and loops over the
  channels. `MexFunction` adds the argument-count guard and the input type
  check. Every method is proved against the specification functions.

The output starts zero-filled (`new real[nChannels](_ => 0.0)`, for
`mxCreateDoubleMatrix`). `ProcessChannel` states its result in terms of the
entry's old value, `(old(adev[hh]) + SumAbsDev(col, mean)) / nSamples`. The
zero fill is therefore what makes the kernel's entry equal `AvgDev(col)`.
Line 76 also overwrites `s` with the current deviation. The model keeps that
assignment, and no invariant after the mean pass assumes `s` is still the sum.

## Model

| member | source | states |
|---|---|---|
| `CalcAvgDevMex.ColumnMean` | Matlab/WP2_Cues/private/calcAvgDevMEX.cpp:67-72 | after the first inner loop, `s` is the left-to-right sum of column `hh` and `mean` is that sum divided by `nSamples` |
| `CalcAvgDevMex.ProcessChannel` | Matlab/WP2_Cues/private/calcAvgDevMEX.cpp:64-80 | one channel iteration sets `adev[hh]` to its old value plus the sum of `|x - mean|` over the column, divided by `nSamples`; every other entry of `adev` is unchanged, and the input is outside its frame |
| `CalcAvgDevMex.AverageDeviations` | Matlab/WP2_Cues/private/calcAvgDevMEX.cpp:58-80 | starting from the zero-filled row, the output is fresh, has exactly `nChannels` entries, equals the average deviation of each column, and every entry is `>= 0` |
| `CalcAvgDevMex.MexFunction` | Matlab/WP2_Cues/private/calcAvgDevMEX.cpp:34-82 | with fewer than one input or more than one output it shows the usage text and produces nothing (both directions); a non-real or non-double input is rejected exactly when the argument count is right; otherwise the output row is the average deviations of the input |
| `AverageDeviation.Abs` | Matlab/WP2_Cues/private/calcAvgDevMEX.cpp:76 | `fabs`: the result is non-negative and is `x` or `-x` |
| `AverageDeviation.OffsetInBounds` | Matlab/WP2_Cues/private/calcAvgDevMEX.cpp:64-76 | every offset `ii + hh*nSamples` read for `ii < nSamples`, `hh < nChannels` lies in `[0, nSamples*nChannels)`, and column `hh` ends inside the table |
| `AverageDeviation.ColumnEnd` | Matlab/WP2_Cues/private/calcAvgDevMEX.cpp:64-70 | column `hh < nChannels` ends at `(hh+1)*nSamples <= nSamples*nChannels` |
| `AverageDeviation.Column` | Matlab/WP2_Cues/private/calcAvgDevMEX.cpp:70 | a column has exactly `nSamples` entries |
| `AverageDeviation.ColumnAt` | Matlab/WP2_Cues/private/calcAvgDevMEX.cpp:70-76 | row `ii` of column `hh` is the input entry at offset `ii + hh*nSamples`, which is in bounds |
| `AverageDeviation.AvgDevs` | Matlab/WP2_Cues/private/calcAvgDevMEX.cpp:58-64 | the output row has exactly one entry per input column, also for a table with no columns and no samples |
| `AverageDeviation.SumAbsDevNonNegative` | Matlab/WP2_Cues/private/calcAvgDevMEX.cpp:75-77 | a sum of absolute deviations is never negative |
| `AverageDeviation.AvgDevNonNegative` | Matlab/WP2_Cues/private/calcAvgDevMEX.cpp:76-79 | a channel's average deviation is `>= 0` |
| `AverageDeviation.AvgDevsNonNegative` | Matlab/WP2_Cues/private/calcAvgDevMEX.cpp:64-80 | every entry of the output row is `>= 0` |
| `AverageDeviation.SumConstant` | Matlab/WP2_Cues/private/calcAvgDevMEX.cpp:67-70 | the sum of `n` copies of `v` is `n*v` |
| `AverageDeviation.SumAbsDevAtConstant` | Matlab/WP2_Cues/private/calcAvgDevMEX.cpp:75-77 | samples all equal to `v` have zero total deviation from `v` |
| `AverageDeviation.ConstantColumnMean` | Matlab/WP2_Cues/private/calcAvgDevMEX.cpp:67-72 | the mean of a column whose samples all equal `v` is `v` |
| `AverageDeviation.ConstantColumnZero` | Matlab/WP2_Cues/private/calcAvgDevMEX.cpp:70-79 | a column whose samples are all equal has average deviation 0 |
| `AverageDeviation.Shift` | Matlab/WP2_Cues/private/calcAvgDevMEX.cpp:70 | adding `d` to every sample keeps the length and moves each sample by `d` |
| `AverageDeviation.SumShift` | Matlab/WP2_Cues/private/calcAvgDevMEX.cpp:67-70 | shifting every sample by `d` adds `n*d` to the sum |
| `AverageDeviation.SumAbsDevShift` | Matlab/WP2_Cues/private/calcAvgDevMEX.cpp:75-77 | shifting the samples and the centre by the same `d` leaves the total absolute deviation unchanged |
| `AverageDeviation.MeanShift` | Matlab/WP2_Cues/private/calcAvgDevMEX.cpp:72 | shifting every sample by `d` shifts the mean by `d` |
| `AverageDeviation.AvgDevShift` | Matlab/WP2_Cues/private/calcAvgDevMEX.cpp:67-79 | a channel's average deviation is invariant under adding a constant to its samples |
| `AverageDeviation.ColumnShift` | Matlab/WP2_Cues/private/calcAvgDevMEX.cpp:70 | column `hh` of the table with `d` added to every entry is column `hh` with `d` added to every sample |
| `AverageDeviation.TranslationInvariant` | Matlab/WP2_Cues/private/calcAvgDevMEX.cpp:64-80 | adding a constant to every entry of the table leaves the whole output row unchanged |
| `AverageDeviation.NotScaleInvariant` | Matlab/WP2_Cues/private/calcAvgDevMEX.cpp:72-79 | the statistic is not scale invariant: `[0, 2]` gives 1 and `[0, 4]` gives 2 |
| `AverageDeviation.UpdateOtherColumn` | Matlab/WP2_Cues/private/calcAvgDevMEX.cpp:64-80 | overwriting any table entry outside column `hh` leaves output entry `hh` unchanged, so channels are independent |
| `AverageDeviation.DivOfOffset` | Matlab/WP2_Cues/private/calcAvgDevMEX.cpp:70-76 | offset `ii + hh*nSamples` with `ii < nSamples` belongs to column `hh` |
| `AverageDeviation.TwoChannelExample` | Matlab/WP2_Cues/private/calcAvgDevMEX.cpp:58-80 | the 5 x 2 table with columns `[1,2,3,4,5]` and `[10,10,10,10,10]` gives the row `[1.2, 0.0]` |

## Left out

- Host marshaling (`mxGetM`, `mxGetN`, `mxGetPr`, `mxCreateDoubleMatrix` as an allocator) is not modelled. The model takes the matrix as an array with its two dimensions, and the allocator as a zero-filled `new` array.
- The host's type queries (`mxIsNumeric`, `mxIsComplex`, `mxIsSparse`, `mxIsDouble`) are not modelled. They enter as one boolean parameter of `MexFunction`, and `mexErrMsgTxt` as the `InputRejected` outcome.
- The `usage()` text is console output only. It is represented by the `UsageShown` outcome.
- IEEE-754 doubles, their rounding, and NaN/Inf propagation are not modelled. Samples are mathematical reals. The sums still accumulate left to right, as the loops do, but the results are the exact statistic, not the rounded double result.
- A table with no samples but at least one channel (`nSamples == 0 < nChannels`) is excluded by a precondition. For such a table the C code computes `0/0` and returns NaN, which reals cannot express. A table with no channels is admitted whatever `nSamples` is: the channel loop at line 64 then runs zero times and the result is an empty row, as in the C code for a 0 x 0 input. `MexFunction` states this precondition only on the path that reaches the kernel.
- The `(int)` casts of the `size_t` dimensions and a possible overflow of `hh*nSamples` are platform integer-width concerns. Indices here are unbounded naturals.
- The `max` and `min` macros (lines 6-7) are not used by the code.
- `ProcessChannel` requires that the output and input arrays are distinct. The source always satisfies this, because the output is freshly allocated.
