/**
 * The per-element smooth-L1 (Huber-style) kernel of the loss layer and its
 * derivative, the elementwise pipeline built from them (weighted residual,
 * masked errors, derivatives, masked and scaled input gradients), and the
 * properties that tie the two passes together.
 *
 * Values of the layer's element type are modelled as `real`; `s2` is the
 * layer's `sigma2`, always strictly positive.
 */
module SmoothL1Kernel {

  import opened RealAlgebra
  import opened MathFunctions

  datatype Option<+T> = None | Some(value: T)

  /** `fabs` */
  function Abs(v: real): (a: real)
    ensures a >= 0.0
    ensures a == v || a == -v
  {
    if v < 0.0 then -v else v
  }

  /** `(0 < v) - (v < 0)`: +1 for a positive value, -1 for a negative one, 0 for zero. */
  function Sign(v: real): (s: real)
    ensures s == -1.0 || s == 0.0 || s == 1.0
    ensures s * v == Abs(v)
    ensures (s == 0.0) == (v == 0.0)
  {
    (if 0.0 < v then 1.0 else 0.0) - (if v < 0.0 then 1.0 else 0.0)
  }

  /**
   * The loss of one (possibly inside-weighted) residual `v`: quadratic
   * while |v| < 1/s2, linear from there on.
   */
  function Huber(v: real, s2: real): (e: real)
    requires s2 > 0.0
    ensures e >= 0.0
  {
    if Abs(v) < 1.0 / s2 then
      MulNonNegative(v * v, s2);
      0.5 * v * v * s2
    else
      assert 0.5 / s2 == 0.5 * (1.0 / s2);
      Abs(v) - 0.5 / s2
  }

  /**
   * The derivative that the backward pass writes over a residual `v`:
   * `s2 * v` in the quadratic regime, the sign of `v` in the linear one.
   */
  function HuberGrad(v: real, s2: real): (g: real)
    requires s2 > 0.0
    ensures -1.0 <= g <= 1.0
    ensures g * v >= 0.0
    ensures g == 0.0 <==> v == 0.0
  {
    if Abs(v) < 1.0 / s2 then
      assert s2 * Abs(v) < s2 * (1.0 / s2);
      assert s2 * v == s2 * Abs(v) || s2 * v == -(s2 * Abs(v));
      assert (s2 * v) * v == s2 * (v * v) && v * v >= 0.0;
      s2 * v
    else
      Sign(v)
  }

  /** At |v| = 1/s2 both branches of the kernel give 0.5/s2: the loss is continuous. */
  lemma HuberBranchesAgree(v: real, s2: real)
    requires s2 > 0.0
    requires Abs(v) == 1.0 / s2
    ensures 0.5 * v * v * s2 == 0.5 / s2
    ensures Abs(v) - 0.5 / s2 == 0.5 / s2
    ensures Huber(v, s2) == 0.5 / s2
  {
    var t := 1.0 / s2;
    assert v * v == t * t;
    assert t * s2 == 1.0;
    assert 0.5 * v * v * s2 == 0.5 * t * (t * s2);
  }

  /** At |v| = 1/s2 both branches of the derivative give the sign of v: the derivative is continuous. */
  lemma HuberGradBranchesAgree(v: real, s2: real)
    requires s2 > 0.0
    requires Abs(v) == 1.0 / s2
    ensures s2 * v == Sign(v)
    ensures HuberGrad(v, s2) == Sign(v)
  {
    assert s2 * (1.0 / s2) == 1.0;
  }

  // ---------------------------------------------------------------------
  // HuberGrad is the derivative of Huber.  The proof splits on the regime
  // of v and of w; each case fixes the three kernel values and hands the
  // resulting polynomial inequality (with t = 1/s2) to a lemma of its own.

  /** The first-order remainder of Huber around v, towards w, lies in [0, s2·(w − v)²/2]. */
  ghost predicate ExpansionBounds(v: real, w: real, s2: real)
    requires s2 > 0.0
  {
    0.0 <= Huber(w, s2) - Huber(v, s2) - HuberGrad(v, s2) * (w - v) <= 0.5 * s2 * ((w - v) * (w - v))
  }

  /**
   * HuberGrad(v) is the derivative of Huber at v: the remainder of the
   * tangent-line approximation is never negative (the tangent lies below the
   * loss, so HuberGrad is a subgradient and the loss is convex) and is at
   * most s2·(w − v)²/2 (it vanishes to second order).
   */
  lemma HuberGradIsDerivative(v: real, w: real, s2: real)
    requires s2 > 0.0
    ensures Huber(w, s2) >= Huber(v, s2) + HuberGrad(v, s2) * (w - v)
    ensures Huber(w, s2) - Huber(v, s2) - HuberGrad(v, s2) * (w - v) <= 0.5 * s2 * ((w - v) * (w - v))
  {
    if Abs(v) < 1.0 / s2 && Abs(w) < 1.0 / s2 {
      ExpansionQuadraticQuadratic(v, w, s2);
    } else if Abs(v) < 1.0 / s2 {
      ExpansionQuadraticLinear(v, w, s2);
    } else if Abs(w) < 1.0 / s2 {
      ExpansionLinearQuadratic(v, w, s2);
    } else {
      ExpansionLinearLinear(v, w, s2);
    }
  }

  lemma ExpansionQuadraticQuadratic(v: real, w: real, s2: real)
    requires s2 > 0.0 && Abs(v) < 1.0 / s2 && Abs(w) < 1.0 / s2
    ensures ExpansionBounds(v, w, s2)
  {
    assert Huber(w, s2) == 0.5 * w * w * s2;
    assert Huber(v, s2) == 0.5 * v * v * s2;
    MulCongruence(HuberGrad(v, s2), s2 * v, w - v);
    PolyQuadraticQuadratic(v, w, s2);
  }

  lemma ExpansionQuadraticLinear(v: real, w: real, s2: real)
    requires s2 > 0.0 && Abs(v) < 1.0 / s2 <= Abs(w)
    ensures ExpansionBounds(v, w, s2)
  {
    assert 0.5 / s2 == 0.5 * (1.0 / s2);
    assert s2 * (1.0 / s2) == 1.0;
    assert Huber(v, s2) == 0.5 * v * v * s2;
    MulCongruence(HuberGrad(v, s2), s2 * v, w - v);
    if w >= 0.0 {
      PolyQuadraticLinearUp(v, w, s2, 1.0 / s2);
    } else {
      PolyQuadraticLinearDown(v, w, s2, 1.0 / s2);
    }
  }

  lemma ExpansionLinearQuadratic(v: real, w: real, s2: real)
    requires s2 > 0.0 && Abs(w) < 1.0 / s2 <= Abs(v)
    ensures ExpansionBounds(v, w, s2)
  {
    assert 0.5 / s2 == 0.5 * (1.0 / s2);
    assert s2 * (1.0 / s2) == 1.0;
    assert Huber(w, s2) == 0.5 * w * w * s2;
    if v >= 0.0 {
      MulCongruence(HuberGrad(v, s2), 1.0, w - v);
      PolyLinearQuadraticUp(v, w, s2, 1.0 / s2);
    } else {
      MulCongruence(HuberGrad(v, s2), -1.0, w - v);
      PolyLinearQuadraticDown(v, w, s2, 1.0 / s2);
    }
  }

  lemma ExpansionLinearLinear(v: real, w: real, s2: real)
    requires s2 > 0.0 && 1.0 / s2 <= Abs(v) && 1.0 / s2 <= Abs(w)
    ensures ExpansionBounds(v, w, s2)
  {
    assert 0.5 / s2 == 0.5 * (1.0 / s2);
    assert s2 * (1.0 / s2) == 1.0;
    SquareNonNegative(w - v);
    MulNonNegative(0.5 * s2, (w - v) * (w - v));
    if v >= 0.0 {
      MulCongruence(HuberGrad(v, s2), 1.0, w - v);
      if w < 0.0 {
        assert (w - v) * (w - v) == (-w + v) * (-w + v);
        OppositeLinearPieces(-w, v, s2, 1.0 / s2);
      }
    } else {
      MulCongruence(HuberGrad(v, s2), -1.0, w - v);
      if w >= 0.0 {
        assert (w - v) * (w - v) == (w + -v) * (w + -v);
        OppositeLinearPieces(w, -v, s2, 1.0 / s2);
      }
    }
  }

  lemma PolyQuadraticQuadratic(v: real, w: real, s2: real)
    requires s2 > 0.0
    ensures 0.0 <= 0.5 * w * w * s2 - 0.5 * v * v * s2 - (s2 * v) * (w - v) <= 0.5 * s2 * ((w - v) * (w - v))
  {
    assert 0.5 * w * w * s2 - 0.5 * v * v * s2 - (s2 * v) * (w - v) == 0.5 * s2 * ((w - v) * (w - v));
    SquareNonNegative(w - v);
    MulNonNegative(0.5 * s2, (w - v) * (w - v));
  }

  /** 0.5·s2·(x − y)² >= 0 in expanded form, with s2·t = 1 folded in. */
  lemma HalfSquare(x: real, s2: real, t: real)
    requires s2 > 0.0 && s2 * t == 1.0
    ensures 0.5 * s2 * x * x - x + 0.5 * t >= 0.0
    ensures 0.5 * s2 * x * x + x + 0.5 * t >= 0.0
  {
    MulByOne(x, s2 * t);
    MulByOne(t, s2 * t);
    SquareNonNegative(x - t);
    MulNonNegative(0.5 * s2, (x - t) * (x - t));
    assert 0.5 * s2 * ((x - t) * (x - t)) == 0.5 * s2 * x * x - x + 0.5 * t;
    SquareNonNegative(x + t);
    MulNonNegative(0.5 * s2, (x + t) * (x + t));
    assert 0.5 * s2 * ((x + t) * (x + t)) == 0.5 * s2 * x * x + x + 0.5 * t;
  }

  lemma PolyQuadraticLinearUp(v: real, w: real, s2: real, t: real)
    requires s2 > 0.0 && s2 * t == 1.0 && -t < v < t && t <= w
    ensures 0.0 <= (w - 0.5 * t) - 0.5 * v * v * s2 - (s2 * v) * (w - v) <= 0.5 * s2 * ((w - v) * (w - v))
  {
    MulLe(s2, v, t);
    MulLe(1.0 - s2 * v, t, w);
    MulByOne(v, s2 * t);
    HalfSquare(v, s2, t);
    HalfSquare(w, s2, t);
  }

  lemma PolyQuadraticLinearDown(v: real, w: real, s2: real, t: real)
    requires s2 > 0.0 && s2 * t == 1.0 && -t < v < t && w <= -t
    ensures 0.0 <= (-w - 0.5 * t) - 0.5 * v * v * s2 - (s2 * v) * (w - v) <= 0.5 * s2 * ((w - v) * (w - v))
  {
    MulLe(s2, -t, v);
    MulLe(1.0 + s2 * v, t, -w);
    MulByOne(v, s2 * t);
    HalfSquare(v, s2, t);
    HalfSquare(w, s2, t);
  }

  lemma PolyLinearQuadraticUp(v: real, w: real, s2: real, t: real)
    requires s2 > 0.0 && s2 * t == 1.0 && t <= v && -t < w < t
    ensures 0.0 <= 0.5 * w * w * s2 - (v - 0.5 * t) - 1.0 * (w - v) <= 0.5 * s2 * ((w - v) * (w - v))
  {
    MulLe(s2, t, v);
    MulLe(s2 * v - 1.0, w, t);
    MulByOne(v, s2 * t);
    HalfSquare(v, s2, t);
    HalfSquare(w, s2, t);
  }

  lemma PolyLinearQuadraticDown(v: real, w: real, s2: real, t: real)
    requires s2 > 0.0 && s2 * t == 1.0 && v <= -t && -t < w < t
    ensures 0.0 <= 0.5 * w * w * s2 - (-v - 0.5 * t) - (-1.0) * (w - v) <= 0.5 * s2 * ((w - v) * (w - v))
  {
    MulLe(s2, v, -t);
    MulLe(-1.0 - s2 * v, -t, w);
    MulByOne(v, s2 * t);
    HalfSquare(v, s2, t);
    HalfSquare(w, s2, t);
  }

  /** For x, y >= t (values on opposite linear pieces, by magnitude): 2x <= 0.5·s2·(x + y)². */
  lemma OppositeLinearPieces(x: real, y: real, s2: real, t: real)
    requires s2 > 0.0 && s2 * t == 1.0 && t <= x && t <= y
    ensures 2.0 * x <= 0.5 * s2 * ((x + y) * (x + y))
  {
    MulNonNegative(y - t, 2.0 * x + y + t);
    assert (x + y) * (x + y) - (x + t) * (x + t) == (y - t) * (2.0 * x + y + t);
    MulNonNegative(0.5 * s2, (x + y) * (x + y) - (x + t) * (x + t));
    MulByOne(x, s2 * t);
    MulByOne(t, s2 * t);
    HalfSquare(x, s2, t);
    assert 0.5 * s2 * ((x + t) * (x + t)) == 0.5 * s2 * x * x + x + 0.5 * t;
  }

  // ---------------------------------------------------------------------
  // The elementwise pipeline over whole buffers, one function per step

  /** An optional weight buffer is present with exactly n elements, or absent. */
  predicate Aligned(n: nat, w: Option<seq<real>>) {
    w.None? || |w.value| == n
  }

  /** `caffe_mul` by an optional weight buffer: the identity when no weight is bound. */
  function Weighted(x: seq<real>, w: Option<seq<real>>): (y: seq<real>)
    requires Aligned(|x|, w)
    ensures |y| == |x|
  {
    match w
    case None => x
    case Some(ws) => Product(ws, x)
  }

  /** The kernel applied to every residual. */
  function Kernel(d: seq<real>, s2: real): (e: seq<real>)
    requires s2 > 0.0
    ensures |e| == |d|
  {
    seq(|d|, i requires 0 <= i < |d| => Huber(d[i], s2))
  }

  /** The backward pass's in-place rewrite of `diff`: the kernel's derivative at each residual. */
  function Derivatives(d: seq<real>, s2: real): (g: seq<real>)
    requires s2 > 0.0
    ensures |g| == |d|
  {
    seq(|d|, i requires 0 <= i < |d| => HuberGrad(d[i], s2))
  }

  /** The forward pass's `diff`: pred − target, then the inside weight. */
  function Residuals(pred: seq<real>, target: seq<real>, inside: Option<seq<real>>): (d: seq<real>)
    requires |target| == |pred| && Aligned(|pred|, inside)
    ensures |d| == |pred|
  {
    Weighted(Difference(pred, target), inside)
  }

  /** The forward pass's `errors`: the kernel of each residual, then the outside weight. */
  function Errors(d: seq<real>, s2: real, outside: Option<seq<real>>): (e: seq<real>)
    requires s2 > 0.0 && Aligned(|d|, outside)
    ensures |e| == |d|
  {
    Weighted(Kernel(d, s2), outside)
  }

  /** An input's gradient: alpha times the derivative, then the inside weight, then the outside weight. */
  function Gradients(g: seq<real>, alpha: real, inside: Option<seq<real>>, outside: Option<seq<real>>): (r: seq<real>)
    requires Aligned(|g|, inside) && Aligned(|g|, outside)
    ensures |r| == |g|
  {
    Weighted(Weighted(Scale(alpha, g), inside), outside)
  }

  /**
   * The chain-rule factor of input `index` (0 is the prediction, 1 the
   * target): the top gradient over the batch size, negated for the target.
   */
  function InputScale(index: nat, topDiff: real, num: nat): (alpha: real)
    requires index < 2 && num > 0
    ensures index == 1 ==> alpha == -InputScale(0, topDiff, num)
    ensures topDiff == 0.0 <==> alpha == 0.0
  {
    var sign := if index == 0 then 1.0 else -1.0;
    sign * topDiff / num as real
  }

  /** Every bound weight is non-negative. */
  predicate NonNegative(w: Option<seq<real>>) {
    w.None? || forall i :: 0 <= i < |w.value| ==> w.value[i] >= 0.0
  }

  /** A weight is bound and is zero at element i. */
  predicate ZeroAt(w: Option<seq<real>>, i: nat) {
    w.Some? && i < |w.value| && w.value[i] == 0.0
  }

  // ---------------------------------------------------------------------
  // Properties of the pipeline

  /** Without an outside weight, or with non-negative ones, every error is non-negative. */
  lemma ErrorsNonNegative(d: seq<real>, s2: real, outside: Option<seq<real>>)
    requires s2 > 0.0 && Aligned(|d|, outside) && NonNegative(outside)
    ensures forall i :: 0 <= i < |d| ==> Errors(d, s2, outside)[i] >= 0.0
  {
    forall i | 0 <= i < |d|
      ensures Errors(d, s2, outside)[i] >= 0.0
    {
      var h := Kernel(d, s2)[i];
      if outside.Some? {
        MulNonNegative(outside.value[i], h);
      }
    }
  }

  /** The weight at element i, 1 when no weight is bound. */
  function WeightAt(w: Option<seq<real>>, i: nat): (weight: real)
    requires w.Some? ==> i < |w.value|
  {
    if w.Some? then w.value[i] else 1.0
  }

  lemma WeightedAt(x: seq<real>, w: Option<seq<real>>, i: nat)
    requires Aligned(|x|, w) && i < |x|
    ensures Weighted(x, w)[i] == WeightAt(w, i) * x[i]
  {
  }

  /** A weight that is zero at element i zeroes element i of anything it weights. */
  lemma WeightedZeroAt(x: seq<real>, w: Option<seq<real>>, i: nat)
    requires Aligned(|x|, w) && ZeroAt(w, i)
    ensures Weighted(x, w)[i] == 0.0
  {
  }

  /** A zero inside weight cancels the element's residual, and with it the element's error. */
  lemma ZeroInsideWeightCancels(pred: seq<real>, target: seq<real>, inside: Option<seq<real>>,
                                outside: Option<seq<real>>, s2: real, i: nat)
    requires |target| == |pred| && Aligned(|pred|, inside) && Aligned(|pred|, outside) && s2 > 0.0
    requires ZeroAt(inside, i)
    ensures Residuals(pred, target, inside)[i] == 0.0
    ensures Errors(Residuals(pred, target, inside), s2, outside)[i] == 0.0
  {
    var d := Residuals(pred, target, inside);
    WeightedZeroAt(Difference(pred, target), inside, i);
    assert Kernel(d, s2)[i] == 0.0;
  }

  /** A zero outside weight cancels the element's error. */
  lemma ZeroOutsideWeightCancels(d: seq<real>, s2: real, outside: Option<seq<real>>, i: nat)
    requires s2 > 0.0 && Aligned(|d|, outside)
    requires ZeroAt(outside, i)
    ensures Errors(d, s2, outside)[i] == 0.0
  {
    WeightedZeroAt(Kernel(d, s2), outside, i);
  }

  /** A zero inside or outside weight cancels the element's gradient, whatever the derivative and alpha. */
  lemma ZeroWeightCancelsGradient(g: seq<real>, alpha: real, inside: Option<seq<real>>,
                                  outside: Option<seq<real>>, i: nat)
    requires Aligned(|g|, inside) && Aligned(|g|, outside)
    requires ZeroAt(inside, i) || ZeroAt(outside, i)
    ensures Gradients(g, alpha, inside, outside)[i] == 0.0
  {
    if ZeroAt(inside, i) {
      WeightedZeroAt(Scale(alpha, g), inside, i);
      var x := Weighted(Scale(alpha, g), inside);
      if outside.Some? {
        MulCongruence(x[i], 0.0, outside.value[i]);
      }
    } else {
      WeightedZeroAt(Weighted(Scale(alpha, g), inside), outside, i);
    }
  }

  /** Negating alpha negates the gradient element by element. */
  lemma GradientsNegate(g: seq<real>, alpha: real, inside: Option<seq<real>>, outside: Option<seq<real>>)
    requires Aligned(|g|, inside) && Aligned(|g|, outside)
    ensures forall i :: 0 <= i < |g| ==>
      Gradients(g, -alpha, inside, outside)[i] == -Gradients(g, alpha, inside, outside)[i]
  {
    var minus := Scale(-alpha, g);
    var plus := Scale(alpha, g);
    assert forall i :: 0 <= i < |g| ==> minus[i] == -plus[i];
    WeightedNegate(plus, minus, inside);
    WeightedNegate(Weighted(plus, inside), Weighted(minus, inside), outside);
  }

  /** Weighting commutes with negation. */
  lemma WeightedNegate(x: seq<real>, y: seq<real>, w: Option<seq<real>>)
    requires |y| == |x| && Aligned(|x|, w)
    requires forall i :: 0 <= i < |x| ==> y[i] == -x[i]
    ensures forall i :: 0 <= i < |x| ==> Weighted(y, w)[i] == -Weighted(x, w)[i]
  {
    if w.Some? {
      forall i | 0 <= i < |x|
        ensures Weighted(y, w)[i] == -Weighted(x, w)[i]
      {
        MulCongruence(y[i], -x[i], w.value[i]);
      }
    }
  }

  // ---------------------------------------------------------------------
  // The backward pass differentiates the forward pass

  /**
   * Moving the prediction by d changes the error by de, which is slope·d up
   * to a remainder of at most |b|·s2·(a·d)²/2: `slope` is the derivative of
   * the error, whatever the sign of the outside weight b.
   */
  ghost predicate DerivativeBounds(de: real, slope: real, d: real, a: real, b: real, s2: real) {
    -(Abs(b) * (0.5 * s2 * Square(a * d))) <= de - slope * d <= Abs(b) * (0.5 * s2 * Square(a * d))
  }

  /**
   * Moving the prediction from p to q moves the error from e0 to e1 by
   * slope·(q − p) plus a remainder between 0 and b·s2·(a·(q − p))²/2: with
   * b >= 0 the tangent lies below the error, which is convex.
   */
  ghost predicate ChainRuleBounds(e0: real, e1: real, slope: real, p: real, q: real, a: real, b: real, s2: real) {
    0.0 <= e1 - e0 - slope * (q - p) <= b * (0.5 * s2 * Square(a * (q - p)))
  }

  /** The first-order remainder of a kernel with values hv, hw and slope g over a step x lies in [0, s2·x²/2]. */
  ghost predicate RemainderBounds(hv: real, hw: real, g: real, x: real, s2: real) {
    0.0 <= hw - hv - g * x <= 0.5 * s2 * (x * x)
  }

  /** HuberGradIsDerivative, restated over the step w − v. */
  lemma KernelRemainder(v: real, w: real, s2: real)
    requires s2 > 0.0
    ensures RemainderBounds(Huber(v, s2), Huber(w, s2), HuberGrad(v, s2), w - v, s2)
  {
    HuberGradIsDerivative(v, w, s2);
  }

  /** The values of one element in both passes, for predictions p and q, inside weight a and outside weight b. */
  ghost predicate ElementValues(p: real, q: real, a: real, b: real, s2: real,
                                v: real, w: real, e0: real, e1: real, gr: real) {
    s2 > 0.0 && w - v == a * (q - p) &&
    e0 == b * Huber(v, s2) && e1 == b * Huber(w, s2) &&
    gr == b * (a * (1.0 * HuberGrad(v, s2)))
  }

  /**
   * One element, in scalars. With inside weight a and outside weight b,
   * predictions p and q give residuals v and w, which differ by a·(q − p),
   * and errors e0 and e1; gr is the gradient the backward pass writes at p
   * (unit alpha). Then gr is the derivative of the error at p, and the
   * error is convex in p when b >= 0.
   */
  lemma ElementChainRule(p: real, q: real, a: real, b: real, s2: real,
                         v: real, w: real, e0: real, e1: real, gr: real)
    requires ElementValues(p, q, a, b, s2, v, w, e0, e1, gr)
    ensures DerivativeBounds(e1 - e0, gr, q - p, a, b, s2)
    ensures b >= 0.0 ==> ChainRuleBounds(e0, e1, gr, p, q, a, b, s2)
  {
    KernelRemainder(v, w, s2);
    ScaleRemainder(b, a, p, q, w - v, Huber(v, s2), Huber(w, s2), HuberGrad(v, s2), s2, e0, e1, gr);
  }

  /**
   * A remainder bound over a step x = a·(q − p), scaled by the outside
   * weight b: it stays in [0, b·s2·x²/2] for b >= 0, and its size is at
   * most |b|·s2·x²/2 for any b.
   */
  lemma ScaleRemainder(b: real, a: real, p: real, q: real, x: real,
                       hv: real, hw: real, g: real, s2: real, e0: real, e1: real, gr: real)
    requires x == a * (q - p) && RemainderBounds(hv, hw, g, x, s2)
    requires e0 == b * hv && e1 == b * hw && gr == b * (a * (1.0 * g))
    ensures DerivativeBounds(e1 - e0, gr, q - p, a, b, s2)
    ensures b >= 0.0 ==> ChainRuleBounds(e0, e1, gr, p, q, a, b, s2)
  {
    var d := q - p;
    MulCongruence(x, a * d, g);
    MulCongruence(x, a * d, x);
    MulCongruence(a * d, x, a * d);
    var r := hw - hv - g * (a * d);
    var m := 0.5 * s2 * Square(a * d);
    MulCongruence(gr, b * (a * g), d);
    assert b * r == b * hw - b * hv - (b * (a * g)) * d;
    if b >= 0.0 {
      MulLe(b, 0.0, r);
      MulLe(b, r, m);
    } else {
      MulLe(-b, 0.0, r);
      MulLe(-b, r, m);
    }
  }

  /**
   * The gradient Backward writes for the prediction (with unit alpha) is the
   * derivative of the error Forward computes at the same element: for any
   * other prediction pred2, the change in error differs from the gradient
   * times the change in prediction by at most |b|·s2·(a·Δ)²/2, where a and b
   * are the element's weights. With b >= 0 the error is also convex: the
   * change is at least that first-order estimate.
   */
  lemma GradientIsDerivativeOfError(pred: seq<real>, pred2: seq<real>, target: seq<real>,
                                    inside: Option<seq<real>>, outside: Option<seq<real>>, s2: real, i: nat)
    requires |target| == |pred| && |pred2| == |pred| && i < |pred|
    requires Aligned(|pred|, inside) && Aligned(|pred|, outside) && s2 > 0.0
    ensures DerivativeBounds(Errors(Residuals(pred2, target, inside), s2, outside)[i]
                               - Errors(Residuals(pred, target, inside), s2, outside)[i],
                             Gradients(Derivatives(Residuals(pred, target, inside), s2), 1.0, inside, outside)[i],
                             pred2[i] - pred[i], WeightAt(inside, i), WeightAt(outside, i), s2)
    ensures WeightAt(outside, i) >= 0.0 ==>
      ChainRuleBounds(Errors(Residuals(pred, target, inside), s2, outside)[i],
                      Errors(Residuals(pred2, target, inside), s2, outside)[i],
                      Gradients(Derivatives(Residuals(pred, target, inside), s2), 1.0, inside, outside)[i],
                      pred[i], pred2[i], WeightAt(inside, i), WeightAt(outside, i), s2)
  {
    var d := Residuals(pred, target, inside);
    var d2 := Residuals(pred2, target, inside);
    ElementValuesAt(pred, pred2, target, inside, outside, s2, i);
    ElementChainRule(pred[i], pred2[i], WeightAt(inside, i), WeightAt(outside, i), s2, d[i], d2[i],
                     Errors(d, s2, outside)[i], Errors(d2, s2, outside)[i],
                     Gradients(Derivatives(d, s2), 1.0, inside, outside)[i]);
  }

  /** |x·y| = |x|·|y| */
  lemma AbsMul(x: real, y: real)
    ensures Abs(x * y) == Abs(x) * Abs(y)
  {
    if x >= 0.0 && y >= 0.0 {
      MulNonNegative(x, y);
    } else if x >= 0.0 {
      MulNonNegative(x, -y);
    } else if y >= 0.0 {
      MulNonNegative(-x, y);
    } else {
      MulNonNegative(-x, -y);
    }
  }

  /** Multiplying a derivative bound through by c scales the change, the slope and the outside weight by c. */
  lemma ScaleBounds(c: real, de: real, slope: real, d: real, a: real, b: real, s2: real)
    requires DerivativeBounds(de, slope, d, a, b, s2)
    ensures DerivativeBounds(c * de, c * slope, d, a, c * b, s2)
  {
    var x := de - slope * d;
    var m := 0.5 * s2 * Square(a * d);
    var r := Abs(b) * m;
    assert c * de - (c * slope) * d == c * x;
    AbsMul(c, b);
    assert Abs(c * b) * m == Abs(c) * r;
    if c >= 0.0 {
      MulLe(c, -r, x);
      MulLe(c, x, r);
    } else {
      MulLe(-c, -r, x);
      MulLe(-c, x, r);
    }
  }

  /** The loss Forward reports: the sum of the errors over the batch size. */
  function Loss(pred: seq<real>, target: seq<real>, inside: Option<seq<real>>, outside: Option<seq<real>>,
                s2: real, num: nat): (loss: real)
    requires |target| == |pred| && Aligned(|pred|, inside) && Aligned(|pred|, outside)
    requires s2 > 0.0 && num > 0
  {
    Sum(Errors(Residuals(pred, target, inside), s2, outside)) / num as real
  }

  /** y is c times x. */
  ghost predicate Scaled(y: real, c: real, x: real) {
    y == c * x
  }

  /** Moving prediction i to q changes error i and no other. */
  lemma ErrorsAfterMove(pred: seq<real>, target: seq<real>, inside: Option<seq<real>>, outside: Option<seq<real>>,
                        s2: real, i: nat, q: real)
    requires |target| == |pred| && i < |pred|
    requires Aligned(|pred|, inside) && Aligned(|pred|, outside) && s2 > 0.0
    ensures Errors(Residuals(pred[i := q], target, inside), s2, outside)
         == Errors(Residuals(pred, target, inside), s2, outside)[i := Errors(Residuals(pred[i := q], target, inside), s2, outside)[i]]
  {
    var e := Errors(Residuals(pred, target, inside), s2, outside);
    var e2 := Errors(Residuals(pred[i := q], target, inside), s2, outside);
    forall k | 0 <= k < |pred| && k != i
      ensures e2[k] == e[k]
    {
      ErrorUnmoved(pred, target, inside, outside, s2, i, q, k);
    }
    assert e2 == e[i := e2[i]];
  }

  /** Moving prediction i leaves the error at any other element k as it was. */
  lemma ErrorUnmoved(pred: seq<real>, target: seq<real>, inside: Option<seq<real>>, outside: Option<seq<real>>,
                     s2: real, i: nat, q: real, k: nat)
    requires |target| == |pred| && i < |pred| && k < |pred| && k != i
    requires Aligned(|pred|, inside) && Aligned(|pred|, outside) && s2 > 0.0
    ensures Errors(Residuals(pred[i := q], target, inside), s2, outside)[k]
         == Errors(Residuals(pred, target, inside), s2, outside)[k]
  {
    var d := Residuals(pred, target, inside);
    var d2 := Residuals(pred[i := q], target, inside);
    ResidualUnmoved(pred, target, inside, i, q, k);
    ErrorAt(d, s2, outside, k);
    ErrorAt(d2, s2, outside, k);
  }

  /** Moving prediction i leaves the residual at any other element k as it was. */
  lemma ResidualUnmoved(pred: seq<real>, target: seq<real>, inside: Option<seq<real>>, i: nat, q: real, k: nat)
    requires |target| == |pred| && i < |pred| && k < |pred| && k != i && Aligned(|pred|, inside)
    ensures Residuals(pred[i := q], target, inside)[k] == Residuals(pred, target, inside)[k]
  {
    ResidualAt(pred, target, inside, k);
    ResidualAt(pred[i := q], target, inside, k);
  }

  /** Moving prediction i to q changes the sum of the errors by the change in error i. */
  lemma SumAfterMove(pred: seq<real>, target: seq<real>, inside: Option<seq<real>>, outside: Option<seq<real>>,
                     s2: real, i: nat, q: real)
    requires |target| == |pred| && i < |pred|
    requires Aligned(|pred|, inside) && Aligned(|pred|, outside) && s2 > 0.0
    ensures Sum(Errors(Residuals(pred[i := q], target, inside), s2, outside))
         == Sum(Errors(Residuals(pred, target, inside), s2, outside))
              - Errors(Residuals(pred, target, inside), s2, outside)[i]
              + Errors(Residuals(pred[i := q], target, inside), s2, outside)[i]
  {
    var e := Errors(Residuals(pred, target, inside), s2, outside);
    var e2 := Errors(Residuals(pred[i := q], target, inside), s2, outside);
    ErrorsAfterMove(pred, target, inside, outside, s2, i, q);
    SumUpdate(e, i, e2[i]);
  }

  /** Moving prediction i to q changes topDiff·loss by alpha times the change in error i. */
  lemma LossAfterMove(pred: seq<real>, target: seq<real>, inside: Option<seq<real>>, outside: Option<seq<real>>,
                      s2: real, num: nat, topDiff: real, i: nat, q: real)
    requires |target| == |pred| && i < |pred|
    requires Aligned(|pred|, inside) && Aligned(|pred|, outside) && s2 > 0.0 && num > 0
    ensures Scaled(topDiff * Loss(pred[i := q], target, inside, outside, s2, num)
                     - topDiff * Loss(pred, target, inside, outside, s2, num),
                   InputScale(0, topDiff, num),
                   Errors(Residuals(pred[i := q], target, inside), s2, outside)[i]
                     - Errors(Residuals(pred, target, inside), s2, outside)[i])
  {
    SumAfterMove(pred, target, inside, outside, s2, i, q);
    LossChange(topDiff, num, Loss(pred, target, inside, outside, s2, num), Loss(pred[i := q], target, inside, outside, s2, num),
               topDiff * Loss(pred, target, inside, outside, s2, num), topDiff * Loss(pred[i := q], target, inside, outside, s2, num),
               Sum(Errors(Residuals(pred, target, inside), s2, outside)),
               Sum(Errors(Residuals(pred[i := q], target, inside), s2, outside)),
               Errors(Residuals(pred, target, inside), s2, outside)[i],
               Errors(Residuals(pred[i := q], target, inside), s2, outside)[i],
               InputScale(0, topDiff, num));
  }

  /**
   * Losses l0 and l1 are sums s0 and s1 over num, where the sums differ by
   * e1 − e0: the change from t0 = topDiff·l0 to t1 = topDiff·l1 is
   * c = topDiff/num times e1 − e0.
   */
  lemma LossChange(topDiff: real, num: nat, l0: real, l1: real, t0: real, t1: real,
                   s0: real, s1: real, e0: real, e1: real, c: real)
    requires num > 0 && l0 == s0 / num as real && l1 == s1 / num as real && s1 == s0 - e0 + e1
    requires t0 == topDiff * l0 && t1 == topDiff * l1 && c == topDiff / num as real
    ensures Scaled(t1 - t0, c, e1 - e0)
  {
    var n := num as real;
    assert l1 - l0 == (e1 - e0) * (1.0 / n);
    assert topDiff * l1 - topDiff * l0 == topDiff * (l1 - l0);
    assert c == topDiff * (1.0 / n);
  }

  /** Gradient element i at scale c is c times gradient element i at unit scale. */
  lemma GradientScale(d: seq<real>, s2: real, c: real, inside: Option<seq<real>>, outside: Option<seq<real>>, i: nat)
    requires s2 > 0.0 && Aligned(|d|, inside) && Aligned(|d|, outside) && i < |d|
    ensures Scaled(Gradients(Derivatives(d, s2), c, inside, outside)[i], c, Gradients(Derivatives(d, s2), 1.0, inside, outside)[i])
  {
    GradientAt(d, s2, c, inside, outside, i);
    GradientAt(d, s2, 1.0, inside, outside, i);
    var a, b, h := WeightAt(inside, i), WeightAt(outside, i), HuberGrad(d[i], s2);
    assert b * (a * (c * h)) == c * (b * (a * (1.0 * h)));
  }

  /**
   * The prediction's gradient that Backward writes is the output gradient
   * times the derivative of the loss Forward reports: moving prediction i
   * to q changes topDiff·loss by that gradient times (q − pred[i]), up to
   * |alpha·b|·s2·(a·Δ)²/2, where alpha = topDiff/num is the prediction's
   * scale and a and b are the element's weights.
   */
  lemma GradientIsDerivativeOfLoss(pred: seq<real>, target: seq<real>, inside: Option<seq<real>>,
                                   outside: Option<seq<real>>, s2: real, num: nat, topDiff: real, i: nat, q: real)
    requires |target| == |pred| && i < |pred|
    requires Aligned(|pred|, inside) && Aligned(|pred|, outside) && s2 > 0.0 && num > 0
    ensures DerivativeBounds(topDiff * Loss(pred[i := q], target, inside, outside, s2, num)
                               - topDiff * Loss(pred, target, inside, outside, s2, num),
                             Gradients(Derivatives(Residuals(pred, target, inside), s2),
                                       InputScale(0, topDiff, num), inside, outside)[i],
                             q - pred[i], WeightAt(inside, i), ScaledWeight(InputScale(0, topDiff, num), outside, i), s2)
  {
    var c, a, b := InputScale(0, topDiff, num), WeightAt(inside, i), WeightAt(outside, i);
    var e0, e1 := Errors(Residuals(pred, target, inside), s2, outside)[i], Errors(Residuals(pred[i := q], target, inside), s2, outside)[i];
    var g1, g := Gradients(Derivatives(Residuals(pred, target, inside), s2), 1.0, inside, outside)[i],
                 Gradients(Derivatives(Residuals(pred, target, inside), s2), c, inside, outside)[i];
    var de := topDiff * Loss(pred[i := q], target, inside, outside, s2, num) - topDiff * Loss(pred, target, inside, outside, s2, num);
    GradientIsDerivativeOfError(pred, pred[i := q], target, inside, outside, s2, i);
    LossAfterMove(pred, target, inside, outside, s2, num, topDiff, i, q);
    GradientScale(Residuals(pred, target, inside), s2, c, inside, outside, i);
    ScaleChange(c, e1 - e0, g1, de, g, q - pred[i], a, b, ScaledWeight(c, outside, i), s2);
  }

  /** The outside weight of element i multiplied by c. */
  function ScaledWeight(c: real, outside: Option<seq<real>>, i: nat): (w: real)
    requires outside.Some? ==> i < |outside.value|
    ensures Scaled(w, c, WeightAt(outside, i))
  {
    c * WeightAt(outside, i)
  }

  /** ScaleBounds, for a change de = c·de1, a slope gr = c·gr1 and a weight cb = c·b. */
  lemma ScaleChange(c: real, de1: real, gr1: real, de: real, gr: real, d: real, a: real, b: real, cb: real, s2: real)
    requires DerivativeBounds(de1, gr1, d, a, b, s2)
    requires Scaled(de, c, de1) && Scaled(gr, c, gr1) && Scaled(cb, c, b)
    ensures DerivativeBounds(de, gr, d, a, cb, s2)
  {
    ScaleBounds(c, de1, gr1, d, a, b, s2);
  }

  /** Element i of both passes, for predictions pred and pred2, in scalars. */
  lemma ElementValuesAt(pred: seq<real>, pred2: seq<real>, target: seq<real>,
                        inside: Option<seq<real>>, outside: Option<seq<real>>, s2: real, i: nat)
    requires |target| == |pred| && |pred2| == |pred| && i < |pred|
    requires Aligned(|pred|, inside) && Aligned(|pred|, outside) && s2 > 0.0
    ensures ElementValues(pred[i], pred2[i], WeightAt(inside, i), WeightAt(outside, i), s2,
                          Residuals(pred, target, inside)[i], Residuals(pred2, target, inside)[i],
                          Errors(Residuals(pred, target, inside), s2, outside)[i],
                          Errors(Residuals(pred2, target, inside), s2, outside)[i],
                          Gradients(Derivatives(Residuals(pred, target, inside), s2), 1.0, inside, outside)[i])
  {
    var d := Residuals(pred, target, inside);
    var d2 := Residuals(pred2, target, inside);
    ResidualDifferenceAt(pred, pred2, target, inside, i);
    ErrorAt(d, s2, outside, i);
    ErrorAt(d2, s2, outside, i);
    GradientAt(d, s2, 1.0, inside, outside, i);
  }

  /** Element i of the residuals: the inside weight times pred − target. */
  lemma ResidualAt(pred: seq<real>, target: seq<real>, inside: Option<seq<real>>, i: nat)
    requires |target| == |pred| && Aligned(|pred|, inside) && i < |pred|
    ensures Residuals(pred, target, inside)[i] == WeightAt(inside, i) * (pred[i] - target[i])
  {
    WeightedAt(Difference(pred, target), inside, i);
    MulCongruence(Difference(pred, target)[i], pred[i] - target[i], WeightAt(inside, i));
  }

  /** Two predictions' residuals at element i differ by the inside weight times the predictions' difference. */
  lemma ResidualDifferenceAt(pred: seq<real>, pred2: seq<real>, target: seq<real>, inside: Option<seq<real>>, i: nat)
    requires |target| == |pred| && |pred2| == |pred| && Aligned(|pred|, inside) && i < |pred|
    ensures Residuals(pred2, target, inside)[i] - Residuals(pred, target, inside)[i]
            == WeightAt(inside, i) * (pred2[i] - pred[i])
  {
    ResidualAt(pred, target, inside, i);
    ResidualAt(pred2, target, inside, i);
  }

  /** Element i of the errors: the outside weight times the kernel of the residual. */
  lemma ErrorAt(d: seq<real>, s2: real, outside: Option<seq<real>>, i: nat)
    requires s2 > 0.0 && Aligned(|d|, outside) && i < |d|
    ensures Errors(d, s2, outside)[i] == WeightAt(outside, i) * Huber(d[i], s2)
  {
    WeightedAt(Kernel(d, s2), outside, i);
    MulCongruence(Kernel(d, s2)[i], Huber(d[i], s2), WeightAt(outside, i));
  }

  /** Element i of an input gradient: outside weight times inside weight times alpha times the derivative. */
  lemma GradientAt(d: seq<real>, s2: real, alpha: real, inside: Option<seq<real>>, outside: Option<seq<real>>, i: nat)
    requires s2 > 0.0 && Aligned(|d|, inside) && Aligned(|d|, outside) && i < |d|
    ensures Gradients(Derivatives(d, s2), alpha, inside, outside)[i]
            == WeightAt(outside, i) * (WeightAt(inside, i) * (alpha * HuberGrad(d[i], s2)))
  {
    var g := Derivatives(d, s2);
    var scaled := Weighted(Scale(alpha, g), inside);
    WeightedAt(Scale(alpha, g), inside, i);
    MulCongruence(Scale(alpha, g)[i], alpha * HuberGrad(d[i], s2), WeightAt(inside, i));
    WeightedAt(scaled, outside, i);
    MulCongruence(scaled[i], WeightAt(inside, i) * (alpha * HuberGrad(d[i], s2)), WeightAt(outside, i));
  }
}
