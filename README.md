# Time-series utilities: stationarity transforms, forecast bias, metrics adapter

A Dafny model of `src/utils/ts_utils.py` of a time-series forecasting toolkit. The file has three parts:

- **`make_stationary`** picks a transform by name. `"detrend"` forces `return_trend=True` into the caller's
  keyword dictionary, in place, and calls the external detrender. Its inverse adds the captured trend back.
  `"logdiff"` returns `log(x[:-1] / x[1:])`, and its inverse is `exp(st) * x[1:]`. Any other name falls through
  both branches, and the function returns `None`.
- **`forecast_bias`** asserts that both arguments have the same type. It takes values from numpy arrays directly,
  and from darts series through `_get_values_or_raise`. It then drops every position where either side is NaN and
  returns `100 * (sum(y) - sum(y_hat)) / sum(y)`.
- **`darts_metrics_adapter`** runs these steps in order:
  1. the type assertions;
  2. the one-column DataFrame gate;
  3. the datetime-index flag;
  4. the MASE check;
  5. the choice between `TimeSeries.from_values` and `TimeSeries.from_series`;
  6. the choice of keyword arguments forwarded to the metric.

Modules:

- `Wrappers`: `Option`.
- `NumpyOps`: the 1-D numpy operations the code uses, over `seq<real>`. These are slicing, elementwise ufuncs,
  division, broadcasting and `np.sum`.
- `Stationarity`: `make_stationary`. The class `DetrendKwargs` is the mutated dictionary, and `MakeStationary` is
  a method that modifies it. The inverse closures are the datatype `Inverse`, applied by `ApplyInverse`.
- `ForecastBias`: `forecast_bias`. A float that may be NaN is an `Option<real>`.
- `MetricsAdapter`: `darts_metrics_adapter`. `Adapter` follows the code as written. `AdapterIntended` is the
  corrected gate (see Findings). Both share `Dispatch`, which models lines 119-143.

The following are parameters of the model, not definitions:

- `np.log` and `np.exp`: `log`, `exp: real -> real`. The round trip assumes `ExpInvertsLog`, i.e.
  `exp(log(r)) == r` for `r > 0`.
- `_detrend`: `detrend(x, kwargs)`, which returns a residual and a trend.
- `is_datetime_dtypes`: `isDatetime` on an abstract index type.
- `_get_values_or_raise`: `getValues`. `None` stands for an exception.

The model follows the code, including where the code departs from its own documentation or from what a caller
might expect:

- An unknown transform name matches neither branch of lines 13-24, so the function returns `None` and raises
  nothing. The docstring (lines 6-12) lists only `"detrend"` and `"logdiff"`.
- The logdiff inverse (lines 21-23) multiplies by `x[1:]`, so the round trip gives back `x[:-1]`, the first n-1
  values, not `x`.
- A zero sum of the actual values raises nothing, and the outcome is `NonFinite`. The docstring (lines 75-78)
  announces a `ValueError` for this case, but the guard at line 92 is commented out.
- The adapter accepts only one-column DataFrames (lines 111-118). It refuses numpy arrays and Series, although the
  message at line 118 recommends them (see Findings).

## Model

| member | source | states |
|---|---|---|
| `Stationarity.ForceReturnTrend` | src/utils/ts_utils.py:14 | `return_trend` maps to `True` whatever the caller stored; every other key and value is kept, and no key is added besides `return_trend` |
| `Stationarity.MakeStationary` | src/utils/ts_utils.py:5-24 | detrend writes `return_trend=True` into the caller's dictionary and returns the detrender's residual with an add-trend inverse; logdiff leaves the dictionary alone and returns `LogDiff` with an inverse capturing `x`; any other name returns `None` and changes nothing |
| `Stationarity.LogDiff` | src/utils/ts_utils.py:20 | the output has length n-1 (0 for an empty `x`), and entry i is `log(x[i] / x[i+1])` |
| `Stationarity.LogDiffRoundTrip` | src/utils/ts_utils.py:19-24 | when `exp` inverts `log` on positive reals and neighbouring values have a positive ratio, the inverse applied to the transform gives back `x[:-1]` |
| `Stationarity.LogDiffEntryInverts` | src/utils/ts_utils.py:22-23 | entry i of the inverse, `exp(log(x[i]/x[i+1])) * x[i+1]`, equals `x[i]` |
| `Stationarity.LogDiffRoundTripDropsLast` | src/utils/ts_utils.py:20-24 | for non-empty `x`, the round trip never restores `x` itself: it yields `x[..n-1]` |
| `Stationarity.DetrendRoundTrip` | src/utils/ts_utils.py:15-18 | if the detrender splits `x` additively into residual and trend of `x`'s length, the inverse restores `x` exactly |
| `Stationarity.AddTrendElementwise` | src/utils/ts_utils.py:16-17 | the detrend inverse of a series of the trend's length is `st[i] + trend[i]` elementwise |
| `Stationarity.ExpTimesTailElementwise` | src/utils/ts_utils.py:21-23 | the logdiff inverse of any series of `x[1:]`'s length, such as a forecast in stationary space, is `exp(st[i]) * x[i+1]` elementwise |
| `Stationarity.ApplyInverseShapeError` | src/utils/ts_utils.py:16-23 | either inverse raises exactly when numpy cannot broadcast the series against the captured trend or `x[1:]` |
| `NumpyOps.Init` | src/utils/ts_utils.py:20 | `x[:-1]` has length n-1 (0 for empty `x`) and keeps the leading elements |
| `NumpyOps.Tail` | src/utils/ts_utils.py:23 | `x[1:]` has length n-1 (0 for empty `x`), and entry i is `x[i+1]` |
| `NumpyOps.MapSeq` | src/utils/ts_utils.py:22 | an elementwise ufunc keeps the length and applies `f` to every entry |
| `NumpyOps.Quotient` | src/utils/ts_utils.py:20 | elementwise division of equal-length arrays with non-zero divisors: entry i is `a[i] / b[i]` |
| `NumpyOps.Broadcast` | src/utils/ts_utils.py:17 | numpy 1-D broadcasting succeeds exactly for equal lengths or a length-1 operand; the result has the broadcast length, and a length-1 operand is repeated |
| `NumpyOps.SumScale` | src/utils/ts_utils.py:91 | `np.sum(c * s) == c * np.sum(s)` |
| `ForecastBias.RemoveNanUnion` | src/utils/ts_utils.py:90 | both outputs have the same length, at most the inputs' length |
| `ForecastBias.KeptIndices` | src/utils/ts_utils.py:90 | the indices where neither side is NaN: strictly increasing, and it contains every such index and no other |
| `ForecastBias.RemoveNanUnionKeeps` | src/utils/ts_utils.py:90 | output entry j on each side is the value at the j-th index where neither input is NaN, so the outputs stay aligned |
| `ForecastBias.RemoveNanUnionNoNan` | src/utils/ts_utils.py:90 | NaN-free inputs pass through unchanged |
| `ForecastBias.RemoveNanUnionExample` | src/utils/ts_utils.py:90 | `[1, NaN, 3]` against `[1, 2, NaN]` keeps only the pair `(1, 1)` |
| `ForecastBias.BiasOfValue` | src/utils/ts_utils.py:91-93 | the outcome is non-finite exactly when the actual values sum to 0, and never an exception; otherwise the percentage `b` satisfies `b * Σy == 100 * (Σy − Σŷ)` |
| `ForecastBias.BiasSign` | src/utils/ts_utils.py:91-93 | for a positive actual sum, the bias is positive exactly when the forecast totals less, and 0 exactly when the totals are equal |
| `ForecastBias.BiasScaleInvariant` | src/utils/ts_utils.py:91-93 | scaling both series by the same non-zero factor leaves the outcome unchanged |
| `ForecastBias.ForecastBiasExamples` | src/utils/ts_utils.py:85-93 | `[100,100]` against `[90,90]` gives 10; `[1,NaN,3]` against `[1,2,NaN]` gives 0; an all-zero actual gives a non-finite result |
| `ForecastBias.ForecastBiasTypeCheck` | src/utils/ts_utils.py:85 | the type assertion fails exactly when the two argument types differ |
| `ForecastBias.ForecastBiasOnArrays` | src/utils/ts_utils.py:86-90 | numpy arrays are used as they are: `intersect` and `_get_values_or_raise` play no part; unequal lengths raise; equal lengths give the bias over the jointly non-NaN positions |
| `ForecastBias.ForecastBiasOnSeries` | src/utils/ts_utils.py:88-90 | darts arguments go through `_get_values_or_raise` with the caller's `intersect`; its exception propagates, and its values go through the NaN removal |
| `MetricsAdapter.AdapterTypeAssertions` | src/utils/ts_utils.py:105-107 | an assertion error exactly when the predicted or a supplied in-sample argument has another type than the actual one, with the pred/actual message whenever those two differ |
| `MetricsAdapter.AdapterFrameGate` | src/utils/ts_utils.py:108-118 | with agreeing types, "Dataframes not supported" is raised exactly when the actual argument is not a one-column DataFrame |
| `MetricsAdapter.AdapterRejectsArraysAndSeries` | src/utils/ts_utils.py:111-118 | only a one-column DataFrame actual ever reaches the metric; numpy arrays and Series never do |
| `MetricsAdapter.AdapterRefusesNdArrays` | src/utils/ts_utils.py:111-118 | two numpy arrays are refused with the DataFrame message |
| `MetricsAdapter.AdapterDeadBranches` | src/utils/ts_utils.py:129-139 | the bare `raise ValueError()` is never reached, and a positional `TimeSeries` is always built from `.values` of a pandas object, never from a raw array |
| `MetricsAdapter.AdapterMaseCheck` | src/utils/ts_utils.py:119-127 | past the gate, the MASE error is raised exactly for `"mase"` without a datetime index on actual, pred and any supplied insample; every other case reaches the metric |
| `MetricsAdapter.AdapterCoercion` | src/utils/ts_utils.py:129-143 | with a datetime index everywhere, actual and pred go through `from_series`, else through `from_values(x.values)`; `insample` and `m` are forwarded exactly for `"mase"`, the insample then being `from_series(insample.squeeze())` or `None`; `intersect` is always forwarded |
| `MetricsAdapter.AdapterPredColumnsUnchecked` | src/utils/ts_utils.py:111-113 | for a non-MASE metric without insample, a predicted frame with other than one column passes the gate unsqueezed and is handed whole to `from_values`/`from_series` |
| `MetricsAdapter.AdapterIntendedAcceptsArrays` | src/utils/ts_utils.py:129-130 | the corrected adapter builds positional series from numpy arrays and refuses MASE on them for lack of a datetime index |
| `MetricsAdapter.AdapterIntendedSqueezeEquivalence` | src/utils/ts_utils.py:111-116 | in the corrected adapter, one-column frames give the same outcome as the Series they squeeze to |
| `MetricsAdapter.AdapterIntendedGate` | src/utils/ts_utils.py:118 | the corrected adapter never reaches the bare `raise ValueError()`, and its gate refuses exactly the frames without exactly one column |
| `MetricsAdapter.AdapterIntendedAgreesOnFrames` | src/utils/ts_utils.py:105-143 | on one-column frames, and on type mismatches, the correction gives the same outcome as the code as written |
| `Stationarity.ApplyInverse` | src/utils/ts_utils.py:16-23 | calls the captured inverse, `st + trend` or `np.exp(st) * x[1:]`; specified by `AddTrendElementwise`, `ExpTimesTailElementwise`, `DetrendRoundTrip`, `LogDiffRoundTrip` and `ApplyInverseShapeError` |
| `NumpyOps.Zip` | src/utils/ts_utils.py:17 | a binary ufunc on equal-length arrays keeps the length and combines entry i of both operands |
| `NumpyOps.Sum` | src/utils/ts_utils.py:91 | `np.sum` over reals; specified by `SumScale` and used by `BiasOfValue`, `BiasSign` and `BiasScaleInvariant` |
| `ForecastBias.BiasOf` | src/utils/ts_utils.py:91-93 | the bias of the cleaned arrays; specified by `BiasOfValue`, `BiasSign` and `BiasScaleInvariant` |
| `ForecastBias.ForecastBias` | src/utils/ts_utils.py:85-93 | `forecast_bias`: type assertion, value extraction, NaN removal, bias; specified by `ForecastBiasTypeCheck`, `ForecastBiasOnArrays`, `ForecastBiasOnSeries` and `ForecastBiasExamples` |
| `MetricsAdapter.Squeeze` | src/utils/ts_utils.py:112-115 | `DataFrame.squeeze()`: a one-column frame becomes that column as a Series with the same index, and any other frame is unchanged; its effect is stated by `AdapterCoercion`, `AdapterPredColumnsUnchecked` and `AdapterIntendedSqueezeEquivalence` |
| `MetricsAdapter.Coerce` | src/utils/ts_utils.py:129-137 | the choice between `from_values` and `from_series` for one argument; specified by `AdapterCoercion`, `AdapterDeadBranches` and `AdapterIntendedAcceptsArrays` |
| `MetricsAdapter.Dispatch` | src/utils/ts_utils.py:119-143 | the datetime flag, the MASE check, the coercion and the forwarded keywords; specified by `AdapterMaseCheck`, `AdapterCoercion`, `AdapterDeadBranches` and `AdapterIntendedGate` |
| `MetricsAdapter.Adapter` | src/utils/ts_utils.py:105-143 | `darts_metrics_adapter` as written; specified by `AdapterTypeAssertions`, `AdapterFrameGate`, `AdapterRejectsArraysAndSeries`, `AdapterMaseCheck`, `AdapterCoercion`, `AdapterDeadBranches` and `AdapterPredColumnsUnchecked` |
| `NumpyOps.Plus` | src/utils/ts_utils.py:17 | the scalar `+` of `st + trend`; its elementwise effect is stated by `AddTrendElementwise` and `DetrendRoundTrip` |
| `NumpyOps.Times` | src/utils/ts_utils.py:23 | the scalar `*` of `_x * x[1:]`; its elementwise effect is stated by `ExpTimesTailElementwise` and `LogDiffRoundTrip` |
| `ForecastBias.SameType` | src/utils/ts_utils.py:85 | `type(actual_series) is type(pred_series)`: both arguments are numpy arrays or both are darts series; `ForecastBiasTypeCheck` states that the assertion fails exactly when it does not hold |
| `MetricsAdapter.KindOf` | src/utils/ts_utils.py:105-110 | `type(x)` among numpy array, Series and DataFrame, the three `isinstance` tests of lines 108-110; used by `AdapterTypeAssertions` |
| `MetricsAdapter.TypesAgree` | src/utils/ts_utils.py:105-107 | pred has the actual argument's type, and so does `insample` when it is supplied; `AdapterTypeAssertions` states that an assertion error is raised exactly when it fails |
| `MetricsAdapter.SingleColumnFrame` | src/utils/ts_utils.py:111 | `is_pd_dataframe and actual_series.shape[1] == 1`; `AdapterFrameGate` states that line 118 raises exactly when it fails |
| `MetricsAdapter.ValuesOf` | src/utils/ts_utils.py:130-132 | `.values` of a Series (a vector) or a DataFrame (a table), the data handed to `from_values`; used by `AdapterCoercion` and `AdapterDeadBranches` |
| `MetricsAdapter.DatetimeIndexed` | src/utils/ts_utils.py:120-122 | one argument is a pandas object whose index `is_datetime_dtypes` accepts |
| `MetricsAdapter.AllDatetime` | src/utils/ts_utils.py:119-122 | the `is_datetime_index` flag: actual, pred and a supplied insample are all datetime-indexed; `AdapterMaseCheck` and `AdapterCoercion` state how it selects the MASE error and the constructor |
| `MetricsAdapter.AdapterIntended` | src/utils/ts_utils.py:105-143 | the adapter with the gate of line 111 applied to DataFrames only; specified by `AdapterIntendedAcceptsArrays`, `AdapterIntendedSqueezeEquivalence`, `AdapterIntendedGate` and `AdapterIntendedAgreesOnFrames` |

## Left out

- `_detrend`'s decomposition, `is_datetime_dtypes`, and darts' `TimeSeries` storage, `_get_values_or_raise`
  alignment and the `mae`/`mse`/`mase` formulas are foreign calls. They are parameters, and the outcome records
  only which constructor and which keyword set were chosen.
- `reduction`, `inter_reduction`, `n_jobs` and `verbose`: `forecast_bias` takes them (lines 36-39) and never uses
  them. The adapter forwards them unchanged to the metric (lines 141, 143). The model does not carry them, and it
  does not model parallel execution.
- Default arguments are not modelled; every member takes all its arguments explicitly.
  - `make_stationary` (line 5): `method="detrend"` and the single shared mutable `detrend_kwargs={}`. A caller models
    the shared default by passing the same `DetrendKwargs` object to every call. Every detrend call forces the same
    key to the same value, so nothing observable is lost.
  - `forecast_bias` (line 34): `intersect=True`.
  - `darts_metrics_adapter` (lines 97-99): `insample=None`, `m=1` and `intersect=True`.
  None of the last four is mutable, so passing them explicitly loses nothing observable.
- Floating point is not modelled: there is no rounding and no inf/NaN propagation in `np.log`, `np.exp` or `/`.
  Values are reals, and a NaN input is `None`.
- Stationarity.MakeStationary: requires that `x[1:]` holds no zero for `"logdiff"`. numpy would divide by zero and
  produce `inf` or `nan`, which reals cannot express.
- Stationarity.LogDiffRoundTrip: holds only for neighbouring values whose ratio is positive. numpy's log of a
  non-positive ratio is NaN or `-inf`, and reals cannot express those.
- The inverse captures `x` by reference. A later in-place change to the caller's array would change the inverse.
  Aliasing of numpy arrays is not modelled: the inverse holds a copy of the values.
- Only one-dimensional arrays are modelled: `NumpyOps.Broadcast` covers 1-D shapes only.
- `Sequence[TimeSeries]` inputs and the median of stochastic series are not modelled.
- Python types other than numpy arrays, Series and DataFrames (for the adapter), or arrays and darts series (for
  `forecast_bias`), are not modelled.
- pandas `squeeze` corner cases are not modelled, such as a one-row, one-column frame collapsing to a scalar.
- The metric's return value is not modelled; the adapter's outcome stops at the call it makes.

## Findings

| source | as written | input that shows it | evidently intended | confidence | as-written member | corrected member |
|---|---|---|---|---|---|---|
| src/utils/ts_utils.py:111-118 | `if is_pd_dataframe and shape[1]==1: ... else: raise ValueError("Dataframes not supported ...")` raises for every actual argument that is not a one-column DataFrame, so lines 129-132 (`is_nd_array`) and 138-139 are dead | two numpy arrays `NdArray(a)`, `NdArray(p)`: the outcome is `ValueError(DataFramesNotSupported)` | only DataFrames without exactly one column are refused; numpy arrays and Series go on to coercion, as the error message ("Use either Series with datetime index or numpy arrays") and the coercion branches expect | not executed; high | `MetricsAdapter.AdapterRefusesNdArrays` | `MetricsAdapter.AdapterIntendedAcceptsArrays` |
