/**
 * `forecast_bias` of src/utils/ts_utils.py: the percentage
 * `100 * (sum(y) - sum(y_hat)) / sum(y)` over the positions where neither
 * the actual nor the predicted value is NaN.
 *
 * A float that may be NaN is an `Option<real>`, None standing for NaN.
 * Darts' `_get_values_or_raise` is a parameter of the model.
 */
module ForecastBias {
  import opened Wrappers
  import opened NumpyOps

  type Float = Option<real>

  /** An argument of `forecast_bias`: a numpy array, or a darts `TimeSeries` of type `S`. */
  datatype Arg<S> = NdArray(values: seq<Float>) | Darts(series: S)

  /** `type(actual_series) is type(pred_series)`. */
  predicate SameType<S>(a: Arg<S>, b: Arg<S>)
  {
    a.NdArray? == b.NdArray?
  }

  /** Two value arrays as `_get_values_or_raise` returns them. */
  datatype Aligned = Aligned(yTrue: seq<Float>, yPred: seq<Float>)

  /** The two arrays `_remove_nan_union` returns: NaN-free and of equal length. */
  datatype Cleaned = Cleaned(yTrue: seq<real>, yPred: seq<real>)

  datatype Failure =
    | TypeAssertion   // the `assert type(...) is type(...)` fails
    | ValuesRaised    // `_get_values_or_raise` raises
    | MaskShape       // the NaN masks of arrays of different lengths cannot be combined

  /**
   * What `forecast_bias` produces: a percentage, the non-finite float numpy
   * yields when the actual values sum to zero (no guard is checked), or an
   * exception.
   */
  datatype Outcome = Percent(value: real) | NonFinite | Raised(failure: Failure)

  /**
   * `_remove_nan_union(a, b)`: drops index i from both arrays whenever
   * either holds NaN there.
   */
  function RemoveNanUnion(a: seq<Float>, b: seq<Float>): (r: Cleaned)
    requires |a| == |b|
    ensures |r.yTrue| == |r.yPred| <= |a|
    decreases |a|
  {
    if |a| == 0 then Cleaned([], [])
    else
      var rest := RemoveNanUnion(a[1..], b[1..]);
      if a[0].Some? && b[0].Some? then Cleaned([a[0].value] + rest.yTrue, [b[0].value] + rest.yPred)
      else rest
  }

  /** Both arrays hold a number (not NaN) at index i. */
  predicate BothPresent(a: seq<Float>, b: seq<Float>, i: int)
    requires |a| == |b|
  {
    0 <= i < |a| && a[i].Some? && b[i].Some?
  }

  /** The indices from `lo` on at which neither array is NaN, in increasing order. */
  function KeptIndices(a: seq<Float>, b: seq<Float>, lo: nat): (k: seq<nat>)
    requires |a| == |b| && lo <= |a|
    ensures forall j :: 0 <= j < |k| ==> lo <= k[j] && BothPresent(a, b, k[j])
    ensures forall j, j' :: 0 <= j < j' < |k| ==> k[j] < k[j']
    ensures forall i :: lo <= i < |a| && BothPresent(a, b, i) ==> i in k
    decreases |a| - lo
  {
    if lo == |a| then []
    else (if BothPresent(a, b, lo) then [lo] else []) + KeptIndices(a, b, lo + 1)
  }

  /**
   * `_remove_nan_union` keeps exactly the kept indices, in order: entry j
   * of each output is the value at the j-th index where neither input is NaN.
   * So the outputs stay aligned pair by pair.
   */
  lemma {:induction false} RemoveNanUnionKeeps(a: seq<Float>, b: seq<Float>, lo: nat)
    requires |a| == |b| && lo <= |a|
    ensures var r, k := RemoveNanUnion(a[lo..], b[lo..]), KeptIndices(a, b, lo);
      |r.yTrue| == |k| &&
      forall j :: 0 <= j < |k| ==> r.yTrue[j] == a[k[j]].value && r.yPred[j] == b[k[j]].value
    decreases |a| - lo
  {
    if lo < |a| {
      RemoveNanUnionKeeps(a, b, lo + 1);
      assert a[lo..][1..] == a[lo + 1..] && b[lo..][1..] == b[lo + 1..];
      var rest, k' := RemoveNanUnion(a[lo + 1..], b[lo + 1..]), KeptIndices(a, b, lo + 1);
      var r, k := RemoveNanUnion(a[lo..], b[lo..]), KeptIndices(a, b, lo);
      if BothPresent(a, b, lo) {
        assert r == Cleaned([a[lo].value] + rest.yTrue, [b[lo].value] + rest.yPred);
        assert k == [lo] + k';
        forall j | 0 <= j < |k|
          ensures r.yTrue[j] == a[k[j]].value && r.yPred[j] == b[k[j]].value
        {
          if j > 0 {
            assert k[j] == k'[j - 1] && r.yTrue[j] == rest.yTrue[j - 1] && r.yPred[j] == rest.yPred[j - 1];
          }
        }
      } else {
        assert r == rest;
        assert k == k';
      }
    }
  }

  /** Arrays with no NaN pass through `_remove_nan_union` unchanged. */
  lemma {:induction false} RemoveNanUnionNoNan(a: seq<Float>, b: seq<Float>)
    requires |a| == |b|
    requires forall i :: 0 <= i < |a| ==> a[i].Some? && b[i].Some?
    ensures var r := RemoveNanUnion(a, b);
      |r.yTrue| == |a| && forall i :: 0 <= i < |a| ==> r.yTrue[i] == a[i].value && r.yPred[i] == b[i].value
  {
    if |a| > 0 {
      RemoveNanUnionNoNan(a[1..], b[1..]);
    }
  }

  /** `[1, NaN, 3]` against `[1, 2, NaN]` keeps only the pair `(1, 1)`. */
  lemma RemoveNanUnionExample()
    ensures RemoveNanUnion([Some(1.0), None, Some(3.0)], [Some(1.0), Some(2.0), None]) == Cleaned([1.0], [1.0])
  {
  }

  /** `((y_true_sum - y_pred_sum) / y_true_sum) * 100.` on the cleaned arrays. */
  function BiasOf(c: Cleaned): Outcome
  {
    var sTrue, sPred := Sum(c.yTrue), Sum(c.yPred);
    if sTrue == 0.0 then NonFinite else Percent((sTrue - sPred) / sTrue * 100.0)
  }

  /**
   * `forecast_bias(actual_series, pred_series, intersect)`: the type
   * assertion first, then numpy arrays used as they are and anything else
   * passed to `_get_values_or_raise` together with `intersect`, then the
   * NaN-union removal and the bias.
   */
  function ForecastBias<S>(actual: Arg<S>, pred: Arg<S>, intersect: bool,
                           getValues: (S, S, bool) -> Option<Aligned>): Outcome
  {
    if !SameType(actual, pred) then Raised(TypeAssertion)
    else
      var aligned :=
        if actual.NdArray? then Some(Aligned(actual.values, pred.values))
        else getValues(actual.series, pred.series, intersect);
      if aligned.None? then Raised(ValuesRaised)
      else if |aligned.value.yTrue| != |aligned.value.yPred| then Raised(MaskShape)
      else BiasOf(RemoveNanUnion(aligned.value.yTrue, aligned.value.yPred))
  }

  /**
   * The bias as a percentage: undefined exactly when the actual values sum
   * to zero, and otherwise the number `b` with `b * sum(y) == 100 * (sum(y) - sum(y_hat))`.
   */
  lemma BiasOfValue(c: Cleaned)
    ensures BiasOf(c).NonFinite? <==> Sum(c.yTrue) == 0.0
    ensures !BiasOf(c).Raised?
    ensures BiasOf(c).Percent? ==>
      BiasOf(c).value * Sum(c.yTrue) == 100.0 * (Sum(c.yTrue) - Sum(c.yPred))
  {
  }

  /** When the actual values sum to a positive number, the bias is positive exactly when the forecast totals less. */
  lemma BiasSign(c: Cleaned)
    requires Sum(c.yTrue) > 0.0
    ensures BiasOf(c).Percent?
    ensures BiasOf(c).value > 0.0 <==> Sum(c.yPred) < Sum(c.yTrue)
    ensures BiasOf(c).value == 0.0 <==> Sum(c.yPred) == Sum(c.yTrue)
  {
  }

  /** The bias is a ratio of sums, so scaling both series by the same non-zero factor leaves it unchanged. */
  lemma BiasScaleInvariant(c: Cleaned, k: real)
    requires k != 0.0
    ensures BiasOf(Cleaned(Scale(k, c.yTrue), Scale(k, c.yPred))) == BiasOf(c)
  {
    SumScale(k, c.yTrue);
    SumScale(k, c.yPred);
    RatioScale(k, Sum(c.yTrue), Sum(c.yPred));
  }

  /** The arithmetic behind BiasScaleInvariant. */
  lemma RatioScale(k: real, t: real, p: real)
    requires k != 0.0
    ensures k * t == 0.0 <==> t == 0.0
    ensures t != 0.0 ==> (k * t - k * p) / (k * t) * 100.0 == (t - p) / t * 100.0
  {
  }

  /** `[100, 100]` against `[90, 90]` is 10 percent; NaN positions drop out; an all-zero actual is undefined. */
  lemma ForecastBiasExamples<S>(getValues: (S, S, bool) -> Option<Aligned>)
    ensures ForecastBias(NdArray([Some(100.0), Some(100.0)]), NdArray([Some(90.0), Some(90.0)]), true, getValues)
            == Percent(10.0)
    ensures ForecastBias(NdArray([Some(1.0), None, Some(3.0)]), NdArray([Some(1.0), Some(2.0), None]), true, getValues)
            == Percent(0.0)
    ensures ForecastBias(NdArray([Some(0.0), Some(0.0)]), NdArray([Some(1.0), Some(2.0)]), true, getValues)
            == NonFinite
  {
    RemoveNanUnionExample();
    var hundreds, nineties := [Some(100.0), Some(100.0)], [Some(90.0), Some(90.0)];
    assert RemoveNanUnion(hundreds, nineties) == Cleaned([100.0, 100.0], [90.0, 90.0]) by {
      assert RemoveNanUnion(hundreds[1..], nineties[1..]) == Cleaned([100.0], [90.0]);
    }
    assert Sum([100.0, 100.0]) == 200.0 && Sum([90.0, 90.0]) == 180.0 by {
      assert [100.0, 100.0][1..] == [100.0] && [90.0, 90.0][1..] == [90.0];
    }
    var zeros, others := [Some(0.0), Some(0.0)], [Some(1.0), Some(2.0)];
    assert RemoveNanUnion(zeros, others) == Cleaned([0.0, 0.0], [1.0, 2.0]) by {
      assert RemoveNanUnion(zeros[1..], others[1..]) == Cleaned([0.0], [2.0]);
    }
    assert Sum([0.0, 0.0]) == 0.0 by {
      assert [0.0, 0.0][1..] == [0.0];
    }
  }

  /** Arguments of different types always fail the type assertion, and only they do. */
  lemma ForecastBiasTypeCheck<S>(actual: Arg<S>, pred: Arg<S>, intersect: bool,
                                 getValues: (S, S, bool) -> Option<Aligned>)
    ensures ForecastBias(actual, pred, intersect, getValues) == Raised(TypeAssertion) <==> !SameType(actual, pred)
  {
  }

  /**
   * Numpy arrays are used unchanged: `intersect` and `_get_values_or_raise`
   * play no part, arrays of different lengths raise, and arrays of equal
   * length give the bias over their jointly non-NaN positions.
   */
  lemma ForecastBiasOnArrays<S>(a: seq<Float>, p: seq<Float>, intersect: bool,
                                getValues: (S, S, bool) -> Option<Aligned>,
                                getValues': (S, S, bool) -> Option<Aligned>)
    ensures ForecastBias(NdArray(a), NdArray(p), intersect, getValues)
            == ForecastBias(NdArray(a), NdArray(p), !intersect, getValues')
    ensures ForecastBias(NdArray(a), NdArray(p), intersect, getValues) == Raised(MaskShape) <==> |a| != |p|
    ensures |a| == |p| ==> ForecastBias(NdArray(a), NdArray(p), intersect, getValues) == BiasOf(RemoveNanUnion(a, p))
  {
  }

  /**
   * A darts argument goes through `_get_values_or_raise` with the caller's
   * `intersect`: when that raises, so does `forecast_bias`.
   */
  lemma ForecastBiasOnSeries<S>(a: S, p: S, intersect: bool, getValues: (S, S, bool) -> Option<Aligned>)
    ensures getValues(a, p, intersect).None? ==>
      ForecastBias(Darts(a), Darts(p), intersect, getValues) == Raised(ValuesRaised)
    ensures getValues(a, p, intersect).Some? ==>
      var v := getValues(a, p, intersect).value;
      ForecastBias(Darts(a), Darts(p), intersect, getValues)
        == if |v.yTrue| == |v.yPred| then BiasOf(RemoveNanUnion(v.yTrue, v.yPred)) else Raised(MaskShape)
  {
  }
}
