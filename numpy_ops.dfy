/**
 * The one-dimensional numpy array operations that the time-series utilities
 * use, over `seq<real>`: Python slicing, elementwise (vectorised) arithmetic,
 * broadcasting of two operands, and `np.sum`.
 */
module NumpyOps {
  import opened Wrappers

  /** `x[:-1]`: every element but the last (empty for an empty array). */
  function Init(x: seq<real>): (r: seq<real>)
    ensures |r| == if |x| == 0 then 0 else |x| - 1
    ensures forall i :: 0 <= i < |r| ==> r[i] == x[i]
  {
    if |x| == 0 then [] else x[..|x| - 1]
  }

  /** `x[1:]`: every element but the first (empty for an empty array). */
  function Tail(x: seq<real>): (r: seq<real>)
    ensures |r| == if |x| == 0 then 0 else |x| - 1
    ensures forall i :: 0 <= i < |r| ==> r[i] == x[i + 1]
  {
    if |x| == 0 then [] else x[1..]
  }

  /** A unary ufunc (`np.log`, `np.exp`) applied elementwise. */
  function MapSeq(f: real -> real, s: seq<real>): (r: seq<real>)
    ensures |r| == |s|
    ensures forall i :: 0 <= i < |s| ==> r[i] == f(s[i])
  {
    if s == [] then [] else [f(s[0])] + MapSeq(f, s[1..])
  }

  /** A binary ufunc applied to two arrays of the same shape. */
  function Zip(f: (real, real) -> real, a: seq<real>, b: seq<real>): (r: seq<real>)
    requires |a| == |b|
    ensures |r| == |a|
    ensures forall i :: 0 <= i < |a| ==> r[i] == f(a[i], b[i])
  {
    if a == [] then [] else [f(a[0], b[0])] + Zip(f, a[1..], b[1..])
  }

  /** The scalar operations of `np.add` and `np.multiply`. */
  function Plus(p: real, q: real): real { p + q }
  function Times(p: real, q: real): real { p * q }

  /** No element of `b` is zero, so that `a / b` divides by real numbers only. */
  predicate NonZero(b: seq<real>)
  {
    forall i :: 0 <= i < |b| ==> b[i] != 0.0
  }

  /** `a / b` on two arrays of the same shape whose divisors are non-zero. */
  function Quotient(a: seq<real>, b: seq<real>): (r: seq<real>)
    requires |a| == |b| && NonZero(b)
    ensures |r| == |a|
    ensures forall i :: 0 <= i < |a| ==> r[i] == a[i] / b[i]
  {
    if a == [] then [] else [a[0] / b[0]] + Quotient(a[1..], b[1..])
  }

  /** The array of length `n` whose every element is `v`. */
  function Repeat(v: real, n: nat): (r: seq<real>)
    ensures |r| == n && forall i :: 0 <= i < n ==> r[i] == v
  {
    seq(n, _ => v)
  }

  /** Whether numpy can broadcast two one-dimensional shapes against each other. */
  predicate Broadcastable(m: nat, n: nat)
  {
    m == n || m == 1 || n == 1
  }

  /** The shape of the result of broadcasting two one-dimensional shapes. */
  function BroadcastLength(m: nat, n: nat): nat
  {
    if m == n then m else if m == 1 then n else m
  }

  /**
   * A binary ufunc on two one-dimensional arrays under numpy's broadcasting
   * rule: equal lengths pair up elementwise, a length-1 operand is repeated,
   * and any other pair of lengths raises (None).
   */
  function Broadcast(f: (real, real) -> real, a: seq<real>, b: seq<real>): (r: Option<seq<real>>)
    ensures r.Some? <==> Broadcastable(|a|, |b|)
    ensures |a| == |b| ==> r == Some(Zip(f, a, b))
    ensures r.Some? ==> |r.value| == BroadcastLength(|a|, |b|)
    ensures r.Some? ==> forall i :: 0 <= i < |r.value| ==>
      r.value[i] == f(a[if |a| == 1 then 0 else i], b[if |b| == 1 then 0 else i])
  {
    if |a| == |b| then Some(Zip(f, a, b))
    else if |a| == 1 then Some(Zip(f, Repeat(a[0], |b|), b))
    else if |b| == 1 then Some(Zip(f, a, Repeat(b[0], |a|)))
    else None
  }

  /** `np.sum` over exact reals. */
  function Sum(s: seq<real>): real
  {
    if s == [] then 0.0 else s[0] + Sum(s[1..])
  }

  /** `c * s`: an array scaled by a scalar. */
  function Scale(c: real, s: seq<real>): (r: seq<real>)
    ensures |r| == |s| && forall i :: 0 <= i < |s| ==> r[i] == c * s[i]
  {
    MapSeq(v => c * v, s)
  }

  /** Summation commutes with scaling: `np.sum(c * s) == c * np.sum(s)`. */
  lemma {:induction false} SumScale(c: real, s: seq<real>)
    ensures Sum(Scale(c, s)) == c * Sum(s)
  {
    if s != [] {
      SumScale(c, s[1..]);
      assert Scale(c, s)[1..] == Scale(c, s[1..]);
    }
  }
}
