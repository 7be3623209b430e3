/**
 * `darts_metrics_adapter` of src/utils/ts_utils.py: validates the actual,
 * predicted and in-sample arguments, decides whether they carry a datetime
 * index, coerces them into darts `TimeSeries` and forwards them to a darts
 * metric. The metric itself, the `TimeSeries` constructors and
 * `is_datetime_dtypes` are outside the model; the outcome records which
 * exception is raised, or which constructor was applied to which value and
 * which keyword arguments the metric receives.
 *
 * `Ix` is the type of a pandas index; `isDatetime` is `is_datetime_dtypes`.
 */
module MetricsAdapter {
  import opened Wrappers

  /** The three argument kinds the adapter inspects. */
  datatype Arg<Ix> =
    | NdArray(values: seq<real>)
    | PdSeries(values: seq<real>, index: Ix)
    | PdDataFrame(columns: seq<seq<real>>, index: Ix)

  datatype Kind = NdArrayKind | SeriesKind | DataFrameKind

  /** `type(x)`. */
  function KindOf<Ix>(x: Arg<Ix>): Kind
  {
    match x
    case NdArray(_) => NdArrayKind
    case PdSeries(_, _) => SeriesKind
    case PdDataFrame(_, _) => DataFrameKind
  }

  /** `DataFrame.squeeze()`: a one-column frame becomes that column as a Series; any other frame is unchanged. */
  function Squeeze<Ix>(x: Arg<Ix>): (r: Arg<Ix>)
    requires x.PdDataFrame?
    ensures !r.NdArray? && r.index == x.index
    ensures r.PdSeries? <==> |x.columns| == 1
    ensures r.PdSeries? ==> r.values == x.columns[0]
    ensures |x.columns| != 1 ==> r == x
  {
    if |x.columns| == 1 then PdSeries(x.columns[0], x.index) else x
  }

  /** One-column frame: `isinstance(x, pd.DataFrame) and x.shape[1] == 1`. */
  predicate SingleColumnFrame<Ix>(x: Arg<Ix>)
  {
    x.PdDataFrame? && |x.columns| == 1
  }

  /** The data handed to `TimeSeries.from_values`: a one- or two-dimensional numpy array. */
  datatype Values = Vector(v: seq<real>) | Table(columns: seq<seq<real>>)

  /** `x.values` of a pandas object. */
  function ValuesOf<Ix>(x: Arg<Ix>): Values
    requires !x.NdArray?
  {
    match x
    case PdSeries(v, _) => Vector(v)
    case PdDataFrame(cols, _) => Table(cols)
  }

  /** A darts `TimeSeries` by the constructor that built it. */
  datatype Canonical<Ix> =
    | FromValues(data: Values)     // TimeSeries.from_values(data): positional
    | FromSeries(source: Arg<Ix>)  // TimeSeries.from_series(source): datetime-indexed

  /** The keyword arguments on top of the common ones. */
  datatype Extra<Ix> =
    | Plain                                                        // no insample, no m
    | InsampleAndM(insample: Option<Canonical<Ix>>, m: Option<int>)

  /** The call `metric_func(actual_series=..., pred_series=..., [insample=..., m=...,] intersect=..., ...)`. */
  datatype Invocation<Ix> = Invocation(actual: Canonical<Ix>, pred: Canonical<Ix>, extra: Extra<Ix>, intersect: bool)

  datatype AssertMsg = PredTypeDiffers | InsampleTypeDiffers
  datatype ValueMsg =
    | DataFramesNotSupported   // "Dataframes not supported in the adapter. ..."
    | MaseNeedsDatetimeIndex   // "MASE needs pandas Series with datetime index as inputs"
    | Bare                     // `raise ValueError()`

  datatype Outcome<Ix> = AssertionError(amsg: AssertMsg) | ValueError(vmsg: ValueMsg) | Call(invocation: Invocation<Ix>)

  const MaseName: string := "mase"

  /** `type(actual_series) is type(pred_series)`, and the same for a supplied `insample`. */
  predicate TypesAgree<Ix>(actual: Arg<Ix>, pred: Arg<Ix>, insample: Option<Arg<Ix>>)
  {
    KindOf(actual) == KindOf(pred) && (insample.Some? ==> KindOf(actual) == KindOf(insample.value))
  }

  /** `x` is a pandas object whose index `is_datetime_dtypes` accepts. */
  predicate DatetimeIndexed<Ix>(x: Arg<Ix>, isDatetime: Ix -> bool)
  {
    !x.NdArray? && isDatetime(x.index)
  }

  /** How the flags of lines 108-116 describe the (possibly squeezed) arguments. */
  predicate FlagsDescribe<Ix>(isNdArray: bool, isPdSeries: bool, a: Arg<Ix>, p: Arg<Ix>, ins: Option<Arg<Ix>>)
  {
    && (isNdArray ==> a.NdArray? && p.NdArray? && (ins.Some? ==> ins.value.NdArray?))
    && (isPdSeries ==> !a.NdArray? && !p.NdArray? && (ins.Some? ==> !ins.value.NdArray?))
  }

  /** The (possibly squeezed) argument `x` coerced into a `TimeSeries` as lines 129-137 do. */
  function Coerce<Ix>(x: Arg<Ix>, isNdArray: bool, isPdSeries: bool, isDt: bool): Canonical<Ix>
    requires isNdArray ==> x.NdArray?
    requires isPdSeries ==> !x.NdArray?
    requires isNdArray || isPdSeries
  {
    if isNdArray || (isPdSeries && !isDt) then FromValues(if isPdSeries then ValuesOf(x) else Vector(x.values))
    else FromSeries(x)
  }

  /**
   * Lines 119-143, from the flags on: the datetime flag, the MASE check, the
   * choice of constructor and the keyword arguments forwarded.
   */
  function Dispatch<Ix>(metricName: string, isNdArray: bool, isPdSeries: bool,
                        a: Arg<Ix>, p: Arg<Ix>, ins: Option<Arg<Ix>>, m: Option<int>, intersect: bool,
                        isDatetime: Ix -> bool): Outcome<Ix>
    requires FlagsDescribe(isNdArray, isPdSeries, a, p, ins)
  {
    var isDt :=
      if isPdSeries then
        isDatetime(a.index) && isDatetime(p.index) && (ins.Some? ==> isDatetime(ins.value.index))
      else false;
    if metricName == MaseName && !isDt then ValueError(MaseNeedsDatetimeIndex)
    else if !isNdArray && !isPdSeries then ValueError(Bare)
    else
      var a', p' := Coerce(a, isNdArray, isPdSeries, isDt), Coerce(p, isNdArray, isPdSeries, isDt);
      var ins' := if ins.Some? then Some(Coerce(ins.value, isNdArray, isPdSeries, isDt)) else None;
      Call(Invocation(a', p', if metricName == MaseName then InsampleAndM(ins', m) else Plain, intersect))
  }

  /**
   * `darts_metrics_adapter` as written: after the type assertions, every
   * argument that is not a one-column DataFrame raises at line 118,
   * whatever its kind.
   */
  function Adapter<Ix>(metricName: string, actual: Arg<Ix>, pred: Arg<Ix>, insample: Option<Arg<Ix>>,
                       m: Option<int>, intersect: bool, isDatetime: Ix -> bool): Outcome<Ix>
  {
    if KindOf(actual) != KindOf(pred) then AssertionError(PredTypeDiffers)
    else if insample.Some? && KindOf(actual) != KindOf(insample.value) then AssertionError(InsampleTypeDiffers)
    else
      var isNdArray := actual.NdArray?;
      if !SingleColumnFrame(actual) then ValueError(DataFramesNotSupported)
      else
        var ins := if insample.Some? then Some(Squeeze(insample.value)) else None;
        Dispatch(metricName, isNdArray, true, Squeeze(actual), Squeeze(pred), ins, m, intersect, isDatetime)
  }

  /**
   * The adapter as its error message says it is meant to work: only a
   * DataFrame with other than one column is refused; numpy arrays and
   * Series go on to the datetime check and the coercion.
   */
  function AdapterIntended<Ix>(metricName: string, actual: Arg<Ix>, pred: Arg<Ix>, insample: Option<Arg<Ix>>,
                               m: Option<int>, intersect: bool, isDatetime: Ix -> bool): Outcome<Ix>
  {
    if KindOf(actual) != KindOf(pred) then AssertionError(PredTypeDiffers)
    else if insample.Some? && KindOf(actual) != KindOf(insample.value) then AssertionError(InsampleTypeDiffers)
    else if actual.PdDataFrame? && |actual.columns| != 1 then ValueError(DataFramesNotSupported)
    else if actual.PdDataFrame? then
      var ins := if insample.Some? then Some(Squeeze(insample.value)) else None;
      Dispatch(metricName, false, true, Squeeze(actual), Squeeze(pred), ins, m, intersect, isDatetime)
    else
      Dispatch(metricName, actual.NdArray?, actual.PdSeries?, actual, pred, insample, m, intersect, isDatetime)
  }

  // ---------------------------------------------------------------------------
  // Properties of the adapter as written

  /** The type assertions come first: an assertion error exactly when a kind differs, with the message of the first check that fails. */
  lemma AdapterTypeAssertions<Ix>(metricName: string, actual: Arg<Ix>, pred: Arg<Ix>, insample: Option<Arg<Ix>>,
                                  m: Option<int>, intersect: bool, isDatetime: Ix -> bool)
    ensures var r := Adapter(metricName, actual, pred, insample, m, intersect, isDatetime);
      && (r.AssertionError? <==> !TypesAgree(actual, pred, insample))
      && (r == AssertionError(PredTypeDiffers) <==> KindOf(actual) != KindOf(pred))
  {
  }

  /**
   * Next, line 118: with agreeing types, `ValueError("Dataframes not
   * supported ...")` is raised exactly when the actual argument is not a
   * one-column DataFrame, so numpy arrays and Series are refused too.
   */
  lemma AdapterFrameGate<Ix>(metricName: string, actual: Arg<Ix>, pred: Arg<Ix>, insample: Option<Arg<Ix>>,
                             m: Option<int>, intersect: bool, isDatetime: Ix -> bool)
    requires TypesAgree(actual, pred, insample)
    ensures Adapter(metricName, actual, pred, insample, m, intersect, isDatetime) == ValueError(DataFramesNotSupported)
            <==> !SingleColumnFrame(actual)
  {
  }

  /** Only one-column DataFrames ever reach a metric; in particular no numpy array and no Series does. */
  lemma AdapterRejectsArraysAndSeries<Ix>(metricName: string, actual: Arg<Ix>, pred: Arg<Ix>, insample: Option<Arg<Ix>>,
                                          m: Option<int>, intersect: bool, isDatetime: Ix -> bool)
    ensures Adapter(metricName, actual, pred, insample, m, intersect, isDatetime).Call? ==> SingleColumnFrame(actual)
    ensures actual.NdArray? || actual.PdSeries? ==> !Adapter(metricName, actual, pred, insample, m, intersect, isDatetime).Call?
  {
  }

  /**
   * The input that shows the gate is wrong: two numpy arrays, which the
   * message of line 118 recommends, are refused as if they were DataFrames.
   */
  lemma AdapterRefusesNdArrays<Ix>(metricName: string, a: seq<real>, p: seq<real>,
                                   m: Option<int>, intersect: bool, isDatetime: Ix -> bool)
    ensures Adapter(metricName, NdArray(a), NdArray(p), None, m, intersect, isDatetime) == ValueError(DataFramesNotSupported)
  {
  }

  /**
   * Dead code: the bare `raise ValueError()` of line 139 is never reached,
   * and no `TimeSeries` is ever built from a raw numpy array (the
   * `is_nd_array` path of lines 129-132).
   */
  lemma AdapterDeadBranches<Ix>(metricName: string, actual: Arg<Ix>, pred: Arg<Ix>, insample: Option<Arg<Ix>>,
                                m: Option<int>, intersect: bool, isDatetime: Ix -> bool)
    ensures var r := Adapter(metricName, actual, pred, insample, m, intersect, isDatetime);
      && r != ValueError(Bare)
      && (r.Call? && r.invocation.actual.FromValues? ==> r.invocation.actual.data == Vector(actual.columns[0]))
      && (r.Call? && r.invocation.pred.FromValues? ==> !pred.NdArray? && r.invocation.pred.data == ValuesOf(Squeeze(pred)))
  {
  }

  /** The datetime flag of lines 119-122 on the original arguments (a squeeze keeps the index). */
  predicate AllDatetime<Ix>(actual: Arg<Ix>, pred: Arg<Ix>, insample: Option<Arg<Ix>>, isDatetime: Ix -> bool)
  {
    DatetimeIndexed(actual, isDatetime) && DatetimeIndexed(pred, isDatetime)
    && (insample.Some? ==> DatetimeIndexed(insample.value, isDatetime))
  }

  /**
   * Past the gate, MASE without a datetime index on every supplied argument
   * raises; every other combination reaches the metric.
   */
  lemma AdapterMaseCheck<Ix>(metricName: string, actual: Arg<Ix>, pred: Arg<Ix>, insample: Option<Arg<Ix>>,
                             m: Option<int>, intersect: bool, isDatetime: Ix -> bool)
    requires TypesAgree(actual, pred, insample) && SingleColumnFrame(actual)
    ensures var r := Adapter(metricName, actual, pred, insample, m, intersect, isDatetime);
      && (r == ValueError(MaseNeedsDatetimeIndex) <==> metricName == MaseName && !AllDatetime(actual, pred, insample, isDatetime))
      && (r.Call? <==> metricName != MaseName || AllDatetime(actual, pred, insample, isDatetime))
  {
  }

  /**
   * The coercion: with a datetime index everywhere every argument goes
   * through `TimeSeries.from_series`, otherwise through
   * `TimeSeries.from_values(x.values)`; `insample` and `m` are forwarded
   * exactly when the metric is MASE, the insample then being
   * `TimeSeries.from_series(insample.squeeze())`, and `intersect` always.
   */
  lemma AdapterCoercion<Ix>(metricName: string, actual: Arg<Ix>, pred: Arg<Ix>, insample: Option<Arg<Ix>>,
                            m: Option<int>, intersect: bool, isDatetime: Ix -> bool)
    requires Adapter(metricName, actual, pred, insample, m, intersect, isDatetime).Call?
    ensures var inv := Adapter(metricName, actual, pred, insample, m, intersect, isDatetime).invocation;
      var dt := AllDatetime(actual, pred, insample, isDatetime);
      && actual.PdDataFrame? && pred.PdDataFrame?
      && inv.actual == (if dt then FromSeries(Squeeze(actual)) else FromValues(ValuesOf(Squeeze(actual))))
      && inv.pred == (if dt then FromSeries(Squeeze(pred)) else FromValues(ValuesOf(Squeeze(pred))))
      && inv.intersect == intersect
      && (inv.extra.InsampleAndM? <==> metricName == MaseName)
      && (inv.extra.InsampleAndM? ==> inv.extra.m == m)
      && (inv.extra.InsampleAndM? ==>
           inv.extra.insample == (if insample.Some? then Some(FromSeries(Squeeze(insample.value))) else None))
      && (inv.extra.InsampleAndM? ==> dt && inv.actual.FromSeries?)
  {
  }

  /**
   * Only the actual argument's column count is checked: a predicted frame
   * with any other number of columns is not squeezed and reaches the metric
   * as a whole frame.
   */
  lemma AdapterPredColumnsUnchecked<Ix>(metricName: string, actual: Arg<Ix>, cols: seq<seq<real>>, predIndex: Ix,
                                        m: Option<int>, intersect: bool, isDatetime: Ix -> bool)
    requires SingleColumnFrame(actual) && |cols| != 1 && metricName != MaseName
    ensures var r := Adapter(metricName, actual, PdDataFrame(cols, predIndex), None, m, intersect, isDatetime);
      r.Call? && r.invocation.pred in {FromValues(Table(cols)), FromSeries(PdDataFrame(cols, predIndex))}
  {
  }

  // ---------------------------------------------------------------------------
  // The corrected adapter

  /** The corrected adapter takes numpy arrays: positionally, and never for MASE, which needs a datetime index. */
  lemma AdapterIntendedAcceptsArrays<Ix>(metricName: string, a: seq<real>, p: seq<real>,
                                         m: Option<int>, intersect: bool, isDatetime: Ix -> bool)
    ensures AdapterIntended(metricName, NdArray(a), NdArray(p), None, m, intersect, isDatetime)
      == if metricName == MaseName then ValueError(MaseNeedsDatetimeIndex)
         else Call(Invocation(FromValues(Vector(a)), FromValues(Vector(p)), Plain, intersect))
  {
  }

  /** A one-column frame is treated exactly like the Series it squeezes to. */
  lemma AdapterIntendedSqueezeEquivalence<Ix>(metricName: string, a: seq<real>, ai: Ix, p: seq<real>, pi: Ix,
                                              insample: Option<(seq<real>, Ix)>,
                                              m: Option<int>, intersect: bool, isDatetime: Ix -> bool)
    ensures
      var framed := if insample.Some? then Some(PdDataFrame([insample.value.0], insample.value.1)) else None;
      var series := if insample.Some? then Some(PdSeries(insample.value.0, insample.value.1)) else None;
      AdapterIntended(metricName, PdDataFrame([a], ai), PdDataFrame([p], pi), framed, m, intersect, isDatetime)
      == AdapterIntended(metricName, PdSeries(a, ai), PdSeries(p, pi), series, m, intersect, isDatetime)
  {
  }

  /** The corrected adapter never reaches the bare `raise ValueError()` either, and refuses only multi-column or empty frames at the gate. */
  lemma AdapterIntendedGate<Ix>(metricName: string, actual: Arg<Ix>, pred: Arg<Ix>, insample: Option<Arg<Ix>>,
                                m: Option<int>, intersect: bool, isDatetime: Ix -> bool)
    ensures var r := AdapterIntended(metricName, actual, pred, insample, m, intersect, isDatetime);
      && r != ValueError(Bare)
      && (TypesAgree(actual, pred, insample) ==>
           (r == ValueError(DataFramesNotSupported) <==> actual.PdDataFrame? && |actual.columns| != 1))
  {
  }

  /** On one-column frames, the only arguments the code as written accepts, the correction changes nothing. */
  lemma AdapterIntendedAgreesOnFrames<Ix>(metricName: string, actual: Arg<Ix>, pred: Arg<Ix>, insample: Option<Arg<Ix>>,
                                          m: Option<int>, intersect: bool, isDatetime: Ix -> bool)
    requires SingleColumnFrame(actual) || !TypesAgree(actual, pred, insample)
    ensures AdapterIntended(metricName, actual, pred, insample, m, intersect, isDatetime)
         == Adapter(metricName, actual, pred, insample, m, intersect, isDatetime)
  {
  }
}
