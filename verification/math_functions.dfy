/**
 * The BLAS-style buffer helpers the loss layer calls (`caffe_sub`,
 * `caffe_mul`, `caffe_cpu_axpby`, `caffe_cpu_dot`), each as a loop over
 * arrays proved against an elementwise function on sequences.
 */
module MathFunctions {

  import opened RealAlgebra

  /** The sum of the elements, accumulated from the front. */
  function Sum(s: seq<real>): (total: real) {
    if |s| == 0 then 0.0 else Sum(s[..|s| - 1]) + s[|s| - 1]
  }

  /** The dot product, accumulated from the front. */
  function Dot(a: seq<real>, b: seq<real>): (dot: real)
    requires |b| == |a|
  {
    if |a| == 0 then 0.0 else Dot(a[..|a| - 1], b[..|a| - 1]) + a[|a| - 1] * b[|a| - 1]
  }

  /** Elementwise a − b. */
  function Difference(a: seq<real>, b: seq<real>): (d: seq<real>)
    requires |b| == |a|
    ensures |d| == |a|
  {
    seq(|a|, i requires 0 <= i < |a| => a[i] - b[i])
  }

  /** Elementwise a · b. */
  function Product(a: seq<real>, b: seq<real>): (p: seq<real>)
    requires |b| == |a|
    ensures |p| == |a|
  {
    seq(|a|, i requires 0 <= i < |a| => a[i] * b[i])
  }

  /** Every element times alpha. */
  function Scale(alpha: real, x: seq<real>): (y: seq<real>)
    ensures |y| == |x|
  {
    seq(|x|, i requires 0 <= i < |x| => alpha * x[i])
  }

  /** Elementwise alpha · x + beta · y. */
  function Combination(alpha: real, x: seq<real>, beta: real, y: seq<real>): (z: seq<real>)
    requires |y| == |x|
    ensures |z| == |x|
  {
    seq(|x|, i requires 0 <= i < |x| => alpha * x[i] + beta * y[i])
  }

  /** Dotting with a buffer of ones sums the other buffer. */
  lemma {:induction false} DotWithOnes(ones: seq<real>, e: seq<real>)
    requires |ones| == |e|
    requires forall i :: 0 <= i < |ones| ==> ones[i] == 1.0
    ensures Dot(ones, e) == Sum(e)
  {
    if |e| > 0 {
      var n := |e| - 1;
      DotWithOnes(ones[..n], e[..n]);
      MulByOne(e[n], ones[n]);
    }
  }

  /** A sum of non-negative elements is non-negative. */
  lemma {:induction false} SumNonNegative(s: seq<real>)
    requires forall i :: 0 <= i < |s| ==> s[i] >= 0.0
    ensures Sum(s) >= 0.0
  {
    if |s| > 0 {
      SumNonNegative(s[..|s| - 1]);
    }
  }

  /** Replacing one element changes the sum by the difference between the new and the old element. */
  lemma {:induction false} SumUpdate(s: seq<real>, i: nat, x: real)
    requires i < |s|
    ensures Sum(s[i := x]) == Sum(s) - s[i] + x
  {
    var n := |s| - 1;
    if i == n {
      assert s[i := x][..n] == s[..n];
    } else {
      SumUpdate(s[..n], i, x);
      assert s[i := x][..n] == s[..n][i := x];
    }
  }

  /** With beta = 0 the old contents of y play no part: the result is alpha · x. */
  lemma CombinationZeroBeta(alpha: real, x: seq<real>, y: seq<real>)
    requires |y| == |x|
    ensures Combination(alpha, x, 0.0, y) == Scale(alpha, x)
  {
    assert forall i :: 0 <= i < |x| ==> Combination(alpha, x, 0.0, y)[i] == Scale(alpha, x)[i];
  }

  /** A sequence that agrees with a · b at every index is Product(a, b). */
  lemma ProductAt(a: seq<real>, b: seq<real>, p: seq<real>)
    requires |b| == |a| && |p| == |a|
    requires forall k :: 0 <= k < |a| ==> p[k] == a[k] * b[k]
    ensures p == Product(a, b)
  {
    forall k | 0 <= k < |a|
      ensures p[k] == Product(a, b)[k]
    {
      MulCongruence(a[k], a[k], b[k]);
    }
  }

  /** A sequence that agrees with alpha · x + beta · y at every index is their Combination. */
  lemma CombinationAt(alpha: real, x: seq<real>, beta: real, y: seq<real>, z: seq<real>)
    requires |y| == |x| && |z| == |x|
    requires forall k :: 0 <= k < |x| ==> z[k] == alpha * x[k] + beta * y[k]
    ensures z == Combination(alpha, x, beta, y)
  {
    forall k | 0 <= k < |x|
      ensures z[k] == Combination(alpha, x, beta, y)[k]
    {
      MulCongruence(alpha, alpha, x[k]);
    }
  }

  /** `caffe_sub`: y := a − b. */
  method Sub(a: array<real>, b: array<real>, y: array<real>)
    requires b.Length == a.Length && y.Length == a.Length
    requires y != a && y != b
    modifies y
    ensures y[..] == Difference(a[..], b[..])
  {
    var i := 0;
    while i < y.Length
      invariant 0 <= i <= y.Length
      invariant forall k :: 0 <= k < i ==> y[k] == a[k] - b[k]
    {
      y[i] := a[i] - b[i];
      i := i + 1;
    }
  }

  /** `caffe_mul`: y := a · b, where y may be b itself (the layer always multiplies in place). */
  method Mul(a: array<real>, b: array<real>, y: array<real>)
    requires b.Length == a.Length && y.Length == a.Length
    requires y != a
    modifies y
    ensures y[..] == Product(a[..], old(b[..]))
  {
    var i := 0;
    while i < y.Length
      invariant 0 <= i <= y.Length
      invariant forall k :: 0 <= k < i ==> y[k] == a[k] * old(b[k])
      invariant forall k :: i <= k < y.Length ==> b[k] == old(b[k])
    {
      y[i] := a[i] * b[i];
      i := i + 1;
    }
    ProductAt(a[..], old(b[..]), y[..]);
  }

  /** `caffe_cpu_axpby`: y := alpha · x + beta · y. */
  method Axpby(alpha: real, x: array<real>, beta: real, y: array<real>)
    requires y.Length == x.Length
    requires y != x
    modifies y
    ensures y[..] == Combination(alpha, x[..], beta, old(y[..]))
  {
    var i := 0;
    while i < y.Length
      invariant 0 <= i <= y.Length
      invariant forall k :: 0 <= k < i ==> y[k] == alpha * x[k] + beta * old(y[k])
      invariant forall k :: i <= k < y.Length ==> y[k] == old(y[k])
    {
      y[i] := alpha * x[i] + beta * y[i];
      i := i + 1;
    }
    CombinationAt(alpha, x[..], beta, old(y[..]), y[..]);
  }

  /** `caffe_cpu_dot`: the dot product of two buffers. */
  method CpuDot(a: array<real>, b: array<real>) returns (r: real)
    requires b.Length == a.Length
    ensures r == Dot(a[..], b[..])
  {
    r := 0.0;
    var i := 0;
    while i < a.Length
      invariant 0 <= i <= a.Length
      invariant r == Dot(a[..i], b[..i])
    {
      assert a[..i + 1][..i] == a[..i] && b[..i + 1][..i] == b[..i];
      r := r + a[i] * b[i];
      i := i + 1;
    }
    assert a[..] == a[..a.Length] && b[..] == b[..b.Length];
  }
}
