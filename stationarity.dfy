/**
 * `make_stationary` of src/utils/ts_utils.py: turns a series into a
 * stationary one and hands back the matching inverse. The inverse closures
 * of the source (`partial(inverse_transform, trend=...)` and
 * `partial(inverse_transform, x=...)`) are the datatype `Inverse`, which
 * holds exactly the data each closure captures, and `ApplyInverse` calls it.
 *
 * `np.log`, `np.exp` and the external `_detrend` are parameters of the model.
 */
module Stationarity {
  import opened Wrappers
  import opened NumpyOps

  /** A value stored in the `detrend_kwargs` dictionary. */
  datatype KwValue = KwBool(b: bool) | KwInt(i: int) | KwReal(r: real) | KwStr(s: string)

  const ReturnTrendKey: string := "return_trend"
  const DetrendMethod: string := "detrend"
  const LogDiffMethod: string := "logdiff"

  /**
   * The dictionary passed as `detrend_kwargs`. It is an object, not a value:
   * `make_stationary` writes into it, and the caller (or, for the default
   * argument, every later default call) sees the write.
   */
  class DetrendKwargs {
    var entries: map<string, KwValue>

    constructor (init: map<string, KwValue>)
      ensures entries == init
    {
      entries := init;
    }
  }

  /** `detrend_kwargs["return_trend"] = True` as a value: the one key overwritten, every other kept. */
  function ForceReturnTrend(kw: map<string, KwValue>): (r: map<string, KwValue>)
    ensures r.Keys == kw.Keys + {ReturnTrendKey}
    ensures r[ReturnTrendKey] == KwBool(true)
    ensures forall k :: k in kw && k != ReturnTrendKey ==> r[k] == kw[k]
  {
    kw[ReturnTrendKey := KwBool(true)]
  }

  /** What `_detrend(x, **kwargs)` returns when `return_trend=True`: the residual and the trend. */
  datatype Decomposition = Decomposition(residual: seq<real>, trend: seq<real>)

  /** The side data the source's inverse closure captures. */
  datatype Inverse =
    | AddTrend(trend: seq<real>)          // partial(inverse_transform, trend=trend)
    | ExpTimesTail(original: seq<real>)   // partial(inverse_transform, x=x)

  /** The pair `(stationary, inverse_transform)` that `make_stationary` returns. */
  datatype Stationary = Stationary(series: seq<real>, inverse: Inverse)

  /** Every divisor of `x[:-1] / x[1:]` is non-zero. */
  predicate NonZeroTail(x: seq<real>)
  {
    forall i :: 1 <= i < |x| ==> x[i] != 0.0
  }

  /**
   * Every ratio `x[i] / x[i+1]` is defined and positive (neighbours are
   * non-zero and of the same sign), so its logarithm is a real number.
   */
  ghost predicate PositiveRatios(x: seq<real>)
  {
    NonZeroTail(x) && forall i, j :: 0 <= i < j < |x| && j == i + 1 ==> x[i] * x[j] > 0.0
  }

  /** The property of `np.log` and `np.exp` the round trip relies on: `exp(log(r)) == r` for `r > 0`. */
  ghost predicate ExpInvertsLog(log: real -> real, exp: real -> real)
  {
    forall r: real :: r > 0.0 ==> exp(log(r)) == r
  }

  /** `np.log(x[:-1] / x[1:])`: one element shorter than `x`. */
  function LogDiff(log: real -> real, x: seq<real>): (r: seq<real>)
    requires NonZeroTail(x)
    ensures |r| == if |x| == 0 then 0 else |x| - 1
    ensures forall i :: 0 <= i < |r| ==> r[i] == log(x[i] / x[i + 1])
  {
    MapSeq(log, Quotient(Init(x), Tail(x)))
  }

  /**
   * Calling the inverse closure on `st`: `st + trend` for the detrend
   * branch, `np.exp(st) * x[1:]` for the logdiff branch. Shapes numpy cannot
   * broadcast raise, which is None here.
   */
  function ApplyInverse(inv: Inverse, st: seq<real>, exp: real -> real): (r: Option<seq<real>>)
  {
    match inv
    case AddTrend(trend) => Broadcast(Plus, st, trend)
    case ExpTimesTail(x) => Broadcast(Times, MapSeq(exp, st), Tail(x))
  }

  /**
   * `make_stationary(x, method, detrend_kwargs)`. The detrend branch first
   * writes `return_trend = True` into the caller's dictionary, whatever it
   * held, and then calls `_detrend` with the updated dictionary; the logdiff
   * branch leaves the dictionary alone; any other method name matches neither
   * branch and the function falls off its end, returning `None`.
   */
  method MakeStationary(x: seq<real>, methodName: string, kwargs: DetrendKwargs,
                        detrend: (seq<real>, map<string, KwValue>) -> Decomposition,
                        log: real -> real)
    returns (r: Option<Stationary>)
    requires methodName == LogDiffMethod ==> NonZeroTail(x)
    modifies kwargs
    ensures methodName == DetrendMethod ==> kwargs.entries == ForceReturnTrend(old(kwargs.entries))
    ensures methodName != DetrendMethod ==> kwargs.entries == old(kwargs.entries)
    ensures methodName == DetrendMethod ==>
      r == Some(Stationary(detrend(x, kwargs.entries).residual, AddTrend(detrend(x, kwargs.entries).trend)))
    ensures methodName == LogDiffMethod ==> r == Some(Stationary(LogDiff(log, x), ExpTimesTail(x)))
    ensures r.None? <==> methodName != DetrendMethod && methodName != LogDiffMethod
  {
    if methodName == DetrendMethod {
      kwargs.entries := ForceReturnTrend(kwargs.entries);
      var d := detrend(x, kwargs.entries);
      r := Some(Stationary(d.residual, AddTrend(d.trend)));
    } else if methodName == LogDiffMethod {
      r := Some(Stationary(LogDiff(log, x), ExpTimesTail(x)));
    } else {
      r := None;
    }
  }

  /**
   * The logdiff round trip: applying the inverse to the transformed series
   * gives back `x[:-1]`, the first n-1 values of `x`, each entry being
   * `exp(log(x[i] / x[i+1])) * x[i+1] == x[i]`.
   */
  lemma {:induction false} LogDiffRoundTrip(log: real -> real, exp: real -> real, x: seq<real>)
    requires ExpInvertsLog(log, exp)
    requires PositiveRatios(x)
    ensures ApplyInverse(ExpTimesTail(x), LogDiff(log, x), exp) == Some(Init(x))
  {
    var st := LogDiff(log, x);
    var e := MapSeq(exp, st);
    forall i | 0 <= i < |Init(x)|
      ensures Times(e[i], Tail(x)[i]) == Init(x)[i]
    {
      LogDiffEntryInverts(log, exp, x, i);
    }
    ZipTimesEquals(e, Tail(x), Init(x));
  }

  /** Two arrays whose elementwise products are `y` multiply to `y`. */
  lemma ZipTimesEquals(e: seq<real>, t: seq<real>, y: seq<real>)
    requires |e| == |t| == |y|
    requires forall i :: 0 <= i < |y| ==> Times(e[i], t[i]) == y[i]
    ensures Zip(Times, e, t) == y
  {
  }

  /** One entry of the logdiff round trip: `exp(log(x[i] / x[i+1])) * x[i+1] == x[i]`. */
  lemma {:induction false} LogDiffEntryInverts(log: real -> real, exp: real -> real, x: seq<real>, i: nat)
    requires ExpInvertsLog(log, exp)
    requires PositiveRatios(x)
    requires i < |Init(x)|
    ensures Times(MapSeq(exp, LogDiff(log, x))[i], Tail(x)[i]) == Init(x)[i]
  {
    var a, b := x[i], x[i + 1];
    assert a * b > 0.0;
    SameSignRatioPositive(a, b);
    var q := a / b;
    var e := MapSeq(exp, LogDiff(log, x))[i];
    assert e == exp(log(q)) == q;
    assert Tail(x)[i] == b && Init(x)[i] == a;
    DivisionCancels(a, b, e);
  }

  /** Neighbours of the same sign have a positive ratio. */
  lemma SameSignRatioPositive(a: real, b: real)
    requires a * b > 0.0
    ensures b != 0.0 && a / b > 0.0
  {
  }

  /** Multiplying a quotient by its divisor gives back the dividend. */
  lemma DivisionCancels(a: real, b: real, q: real)
    requires b != 0.0 && q == a / b
    ensures Times(q, b) == a
  {
  }

  /** The logdiff round trip never restores the whole of a non-empty `x`: the last value is lost. */
  lemma LogDiffRoundTripDropsLast(log: real -> real, exp: real -> real, x: seq<real>)
    requires ExpInvertsLog(log, exp)
    requires PositiveRatios(x)
    requires |x| >= 1
    ensures ApplyInverse(ExpTimesTail(x), LogDiff(log, x), exp) != Some(x)
    ensures ApplyInverse(ExpTimesTail(x), LogDiff(log, x), exp) == Some(x[..|x| - 1])
  {
    LogDiffRoundTrip(log, exp, x);
  }

  /**
   * The detrend round trip: when the external detrender splits `x` additively
   * into residual and trend of `x`'s length, adding the captured trend back
   * restores `x` exactly. (`exp` is only there because `ApplyInverse`
   * takes it; the detrend inverse does not use it.)
   */
  lemma DetrendRoundTrip(x: seq<real>, d: Decomposition, exp: real -> real)
    requires |d.residual| == |x| && |d.trend| == |x|
    requires forall i :: 0 <= i < |x| ==> d.residual[i] + d.trend[i] == x[i]
    ensures ApplyInverse(AddTrend(d.trend), d.residual, exp) == Some(x)
  {
    var r := ApplyInverse(AddTrend(d.trend), d.residual, exp);
    assert r.Some? && |r.value| == |x|;
    assert forall i :: 0 <= i < |x| ==> r.value[i] == x[i];
    assert r.value == x;
  }

  /**
   * The detrend inverse adds the captured trend elementwise to a series of
   * the trend's length, whatever `exp` is (the detrend inverse does not use it).
   */
  lemma AddTrendElementwise(trend: seq<real>, st: seq<real>, exp: real -> real)
    requires |st| == |trend|
    ensures var r := ApplyInverse(AddTrend(trend), st, exp);
      r.Some? && |r.value| == |st| && forall i :: 0 <= i < |st| ==> r.value[i] == st[i] + trend[i]
  {
  }

  /**
   * The logdiff inverse of any series of `x[1:]`'s length, such as a
   * forecast made in stationary space, is `exp(st[i]) * x[i+1]`
   * elementwise.
   */
  lemma ExpTimesTailElementwise(x: seq<real>, st: seq<real>, exp: real -> real)
    requires |x| >= 1 && |st| == |x| - 1
    ensures var r := ApplyInverse(ExpTimesTail(x), st, exp);
      r.Some? && |r.value| == |st| && forall i :: 0 <= i < |st| ==> r.value[i] == exp(st[i]) * x[i + 1]
  {
  }

  /**
   * The inverse raises (None) exactly when numpy cannot broadcast its
   * operands: a series whose length matches neither the captured trend
   * (resp. `x[1:]`) nor 1.
   */
  lemma ApplyInverseShapeError(inv: Inverse, st: seq<real>, exp: real -> real)
    ensures ApplyInverse(inv, st, exp).None? <==>
      match inv
      case AddTrend(trend) => !Broadcastable(|st|, |trend|)
      case ExpTimesTail(x) => !Broadcastable(|st|, |Tail(x)|)
  {
  }
}
