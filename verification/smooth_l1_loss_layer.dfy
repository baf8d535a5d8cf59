/**
 * The smooth-L1 loss layer: its configuration (`sigma2`, whether weights are
 * used), its three scratch buffers, and the passes that fill them.
 *
 * Inputs are bound in this order: 0 the prediction, 1 the target, 2 the
 * inside weight, 3 the outside weight. The layer uses weights when it was
 * set up with three or more inputs; the outside weight takes part only when
 * a fourth input is actually bound.
 */
module SmoothL1Loss {

  import opened RealAlgebra
  import opened MathFunctions
  import opened SmoothL1Kernel

  /** A blob's 4-D shape: batch size, channels, height and width. */
  datatype Shape = Shape(num: nat, channels: nat, height: nat, width: nat) {
    /** The number of elements. */
    function Count(): (count: nat) {
      num * channels * height * width
    }
  }

  /** Two shapes describe examples of the same size (the batch size may differ). */
  predicate SameExampleShape(a: Shape, b: Shape) {
    a.channels == b.channels && a.height == b.height && a.width == b.width
  }

  /**
   * The shape checks of Reshape: the target always matches the prediction;
   * with weights, the inside weight does too, and so does the outside weight
   * when a fourth input is bound.
   */
  predicate ShapesAgree(shapes: seq<Shape>, hasWeights: bool)
    requires |shapes| >= 2 && (hasWeights ==> |shapes| >= 3)
  {
    SameExampleShape(shapes[0], shapes[1]) &&
    (hasWeights ==> SameExampleShape(shapes[0], shapes[2]) &&
                    (|shapes| > 3 ==> SameExampleShape(shapes[0], shapes[3])))
  }

  /** A blob: a shape, its values and the gradient of the loss with respect to them. */
  class Blob {
    const shape: Shape
    const data: array<real>
    const diff: array<real>

    ghost predicate Valid() {
      data.Length == shape.Count() && diff.Length == shape.Count() && data != diff
    }

    constructor (shape: Shape)
      ensures this.shape == shape && Valid()
      ensures fresh(data) && fresh(diff)
    {
      this.shape := shape;
      data := new real[shape.Count()];
      diff := new real[shape.Count()];
    }
  }

  /** The shapes of a list of blobs. */
  function Shapes(blobs: seq<Blob>): (shapes: seq<Shape>)
    ensures |shapes| == |blobs|
    ensures forall k :: 0 <= k < |blobs| ==> shapes[k] == blobs[k].shape
  {
    seq(|blobs|, k requires 0 <= k < |blobs| => blobs[k].shape)
  }

  class SmoothL1LossLayer {
    /** sigma², fixed at set-up. */
    const sigma2: real
    /** Set up with three or more inputs: the inside (and maybe outside) weights are bound. */
    const hasWeights: bool
    /** The (weighted) residuals after Forward, their derivatives after Backward. */
    var diff: array<real>
    /** The per-element losses. */
    var errors: array<real>
    /** All ones; the loss is its dot product with `errors`. */
    var ones: array<real>

    ghost predicate Valid()
      reads this, ones
    {
      sigma2 > 0.0 &&
      errors.Length == diff.Length && ones.Length == diff.Length &&
      diff != errors && diff != ones && errors != ones &&
      forall i :: 0 <= i < ones.Length ==> ones[i] == 1.0
    }

    /** `LayerSetUp`: sigma2 is sigma squared; weights are used with three or more inputs. */
    constructor SetUp(sigma: real, numBottoms: nat)
      requires sigma != 0.0
      ensures sigma2 == sigma * sigma
      ensures hasWeights == (numBottoms >= 3)
      ensures Valid() && diff.Length == 0
    {
      sigma2 := sigma * sigma;
      hasWeights := numBottoms >= 3;
      diff := new real[0];
      errors := new real[0];
      ones := new real[0];
      new;
      SquarePositive(sigma, sigma2);
    }

    /** The inside weight: input 2's values when the layer uses weights. */
    ghost function Inside(bottom: seq<Blob>): (inside: Option<seq<real>>)
      requires |bottom| >= 2 && (hasWeights ==> |bottom| >= 3)
      reads if hasWeights then {bottom[2].data} else {}
    {
      if hasWeights then Some(bottom[2].data[..]) else None
    }

    /** The outside weight: input 3's values when the layer uses weights and a fourth input is bound. */
    ghost function Outside(bottom: seq<Blob>): (outside: Option<seq<real>>)
      requires |bottom| >= 2
      reads if hasWeights && |bottom| > 3 then {bottom[3].data} else {}
    {
      if hasWeights && |bottom| > 3 then Some(bottom[3].data[..]) else None
    }

    /**
     * `Reshape`: when the shape checks pass, the three buffers are resized
     * to the prediction's element count and `ones` is filled with 1s; when
     * one fails the layer is left as it was.
     */
    method Reshape(bottom: seq<Blob>) returns (ok: bool)
      requires Valid()
      requires |bottom| >= 2 && (hasWeights ==> |bottom| >= 3)
      modifies this
      ensures ok == ShapesAgree(Shapes(bottom), hasWeights)
      ensures ok ==> Valid() && diff.Length == bottom[0].shape.Count()
      ensures ok ==> fresh(diff) && fresh(errors) && fresh(ones)
      ensures !ok ==> unchanged(this)
    {
      ok := ShapesAgree(Shapes(bottom), hasWeights);
      if !ok {
        return;
      }
      var n := bottom[0].shape.Count();
      var newOnes := new real[n];
      var i := 0;
      while i < n
        invariant 0 <= i <= n
        invariant forall k :: 0 <= k < i ==> newOnes[k] == 1.0
      {
        newOnes[i] := 1.0;
        i := i + 1;
      }
      diff := new real[n];
      errors := new real[n];
      ones := newOnes;
    }

    /** The inputs the passes read: bound as the configuration demands, as long as the buffers, and apart from them. */
    ghost predicate InputsFit(bottom: seq<Blob>)
      reads this
    {
      |bottom| >= 2 && (hasWeights ==> |bottom| >= 3) &&
      forall k :: 0 <= k < |bottom| ==>
        bottom[k].Valid() && bottom[k].data.Length == diff.Length &&
        bottom[k].data != diff && bottom[k].data != errors
    }

    /**
     * `Forward_cpu`: `diff` holds the (inside-weighted) residuals, `errors`
     * their (outside-weighted) losses, and the output is the sum of the
     * errors over the batch size.
     */
    method Forward(bottom: seq<Blob>, top: seq<Blob>)
      requires Valid() && InputsFit(bottom)
      requires bottom[0].shape.num > 0
      requires |top| >= 1 && top[0].data.Length >= 1
      requires top[0].data != diff && top[0].data != errors && top[0].data != ones
      requires forall k :: 0 <= k < |bottom| ==> top[0].data != bottom[k].data
      modifies diff, errors, top[0].data
      ensures Valid()
      ensures diff[..] == Residuals(bottom[0].data[..], bottom[1].data[..], Inside(bottom))
      ensures errors[..] == Errors(diff[..], sigma2, Outside(bottom))
      ensures top[0].data[..] == old(top[0].data[..])[0 := Sum(errors[..]) / bottom[0].shape.num as real]
      ensures top[0].data[0] == Loss(bottom[0].data[..], bottom[1].data[..], Inside(bottom), Outside(bottom),
                                     sigma2, bottom[0].shape.num)
      ensures NonNegative(Outside(bottom)) ==> top[0].data[0] >= 0.0
      ensures forall k :: 0 <= k < |bottom| ==> bottom[k].data[..] == old(bottom[k].data[..])
    {
      ForwardResiduals(bottom);
      ForwardErrors(bottom);
      var dot := CpuDot(ones, errors);
      DotWithOnes(ones[..], errors[..]);
      top[0].data[0] := dot / bottom[0].shape.num as real;
      if NonNegative(Outside(bottom)) {
        ErrorsNonNegative(diff[..], sigma2, Outside(bottom));
        SumNonNegative(errors[..]);
      }
    }

    /** Lines 63-74 of the forward pass: `diff` := (pred − target), times the inside weight. */
    method ForwardResiduals(bottom: seq<Blob>)
      requires Valid() && InputsFit(bottom)
      modifies diff
      ensures diff[..] == Residuals(bottom[0].data[..], bottom[1].data[..], Inside(bottom))
    {
      Sub(bottom[0].data, bottom[1].data, diff);
      if hasWeights {
        Mul(bottom[2].data, diff, diff);
      }
    }

    /** Lines 77-92 of the forward pass: `errors` := the kernel of `diff`, times the outside weight. */
    method ForwardErrors(bottom: seq<Blob>)
      requires Valid() && InputsFit(bottom)
      modifies errors
      ensures errors[..] == Errors(diff[..], sigma2, Outside(bottom))
    {
      var count := diff.Length;
      var i := 0;
      while i < count
        invariant 0 <= i <= count
        invariant forall k :: 0 <= k < i ==> errors[k] == Huber(diff[k], sigma2)
      {
        var val := diff[i];
        var absVal := Abs(val);
        if absVal < 1.0 / sigma2 {
          errors[i] := 0.5 * val * val * sigma2;
        } else {
          errors[i] := absVal - 0.5 / sigma2;
        }
        i := i + 1;
      }
      assert errors[..] == Kernel(diff[..], sigma2);
      if hasWeights && |bottom| > 3 {
        Mul(bottom[3].data, errors, errors);
      }
    }

    /**
     * No input gradient is the layer's `diff`, and the ones Backward writes
     * (inputs 0 and 1) are apart from every input's values, every other
     * gradient, `ones` and the output's gradient, which Backward reads.
     */
    ghost predicate GradientBuffersApart(bottom: seq<Blob>, top: seq<Blob>)
      reads this
      requires |bottom| >= 2 && |top| >= 1
    {
      top[0].diff != diff &&
      (forall k :: 0 <= k < |bottom| ==> bottom[k].diff != diff) &&
      forall j :: 0 <= j < 2 ==>
        bottom[j].diff != ones && bottom[j].diff != top[0].diff &&
        forall k :: 0 <= k < |bottom| ==>
          bottom[j].diff != bottom[k].data && (k != j ==> bottom[j].diff != bottom[k].diff)
    }

    /**
     * `Backward_cpu`: `diff` is overwritten with the kernel's derivative, and
     * each requested input gradient (0 the prediction, 1 the target) is
     * replaced by that derivative scaled by ±(output gradient)/(batch size)
     * and masked by the weights; nothing else changes.
     */
    method Backward(top: seq<Blob>, propagateDown: seq<bool>, bottom: seq<Blob>)
      requires Valid() && InputsFit(bottom)
      requires |propagateDown| >= 2
      requires forall j :: 0 <= j < 2 && propagateDown[j] ==> bottom[j].shape.num > 0
      requires |top| >= 1 && top[0].diff.Length >= 1
      requires GradientBuffersApart(bottom, top)
      modifies diff, bottom[0].diff, bottom[1].diff
      ensures Valid()
      ensures diff[..] == Derivatives(old(diff[..]), sigma2)
      ensures forall k :: 0 <= k < diff.Length ==> -1.0 <= diff[k] <= 1.0
      ensures forall j :: 0 <= j < 2 ==>
        bottom[j].diff[..] ==
          if propagateDown[j]
          then Gradients(diff[..], InputScale(j, top[0].diff[0], bottom[j].shape.num), Inside(bottom), Outside(bottom))
          else old(bottom[j].diff[..])
      ensures forall k :: 2 <= k < |bottom| ==> bottom[k].diff[..] == old(bottom[k].diff[..])
      ensures forall k :: 0 <= k < |bottom| ==> bottom[k].data[..] == old(bottom[k].data[..])
      ensures propagateDown[0] && propagateDown[1] && bottom[0].shape.num == bottom[1].shape.num ==>
        forall k :: 0 <= k < diff.Length ==> bottom[1].diff[k] == -bottom[0].diff[k]
      ensures forall j, k ::
        (0 <= j < 2 && propagateDown[j] && 0 <= k < diff.Length &&
         (ZeroAt(Inside(bottom), k) || ZeroAt(Outside(bottom), k))) ==> bottom[j].diff[k] == 0.0
    {
      BackwardDerivatives();
      InputGradients(top, propagateDown, bottom);
      if propagateDown[0] && propagateDown[1] && bottom[0].shape.num == bottom[1].shape.num {
        GradientsNegate(diff[..], InputScale(0, top[0].diff[0], bottom[0].shape.num), Inside(bottom), Outside(bottom));
      }
      forall j, k | 0 <= j < 2 && propagateDown[j] && 0 <= k < diff.Length &&
                    (ZeroAt(Inside(bottom), k) || ZeroAt(Outside(bottom), k))
        ensures bottom[j].diff[k] == 0.0
      {
        ZeroWeightCancelsGradient(diff[..], InputScale(j, top[0].diff[0], bottom[j].shape.num),
                                  Inside(bottom), Outside(bottom), k);
      }
    }

    /** Lines 114-142 of the backward pass: the loop over the prediction and the target. */
    method InputGradients(top: seq<Blob>, propagateDown: seq<bool>, bottom: seq<Blob>)
      requires Valid() && InputsFit(bottom)
      requires |propagateDown| >= 2
      requires forall j :: 0 <= j < 2 && propagateDown[j] ==> bottom[j].shape.num > 0
      requires |top| >= 1 && top[0].diff.Length >= 1
      requires GradientBuffersApart(bottom, top)
      modifies bottom[0].diff, bottom[1].diff
      ensures forall j :: 0 <= j < 2 ==>
        bottom[j].diff[..] ==
          if propagateDown[j]
          then Gradients(diff[..], InputScale(j, top[0].diff[0], bottom[j].shape.num), Inside(bottom), Outside(bottom))
          else old(bottom[j].diff[..])
    {
      for j := 0 to 2
        invariant forall m :: 0 <= m < j ==>
          bottom[m].diff[..] ==
            if propagateDown[m]
            then Gradients(diff[..], InputScale(m, top[0].diff[0], bottom[m].shape.num), Inside(bottom), Outside(bottom))
            else old(bottom[m].diff[..])
        invariant forall m :: j <= m < 2 ==> bottom[m].diff[..] == old(bottom[m].diff[..])
      {
        if propagateDown[j] {
          var sign := if j == 0 then 1.0 else -1.0;
          var alpha := sign * top[0].diff[0] / bottom[j].shape.num as real;
          InputGradient(bottom, j, alpha);
        }
      }
    }

    /** Lines 102-113 of the backward pass: each residual in `diff` is replaced by the kernel's derivative there. */
    method BackwardDerivatives()
      requires Valid()
      modifies diff
      ensures diff[..] == Derivatives(old(diff[..]), sigma2)
    {
      var count := diff.Length;
      var i := 0;
      while i < count
        invariant 0 <= i <= count
        invariant forall k :: 0 <= k < i ==> diff[k] == HuberGrad(old(diff[k]), sigma2)
        invariant forall k :: i <= k < count ==> diff[k] == old(diff[k])
      {
        var val := diff[i];
        if Abs(val) < 1.0 / sigma2 {
          diff[i] := sigma2 * val;
        } else {
          diff[i] := Sign(val);
        }
        i := i + 1;
      }
    }

    /** Lines 116-140 of the backward pass: input j's gradient := alpha · diff, then the inside and outside weights. */
    method InputGradient(bottom: seq<Blob>, j: nat, alpha: real)
      requires Valid() && InputsFit(bottom) && j < 2
      requires bottom[j].diff != diff
      requires forall k :: 0 <= k < |bottom| ==> bottom[j].diff != bottom[k].data
      modifies bottom[j].diff
      ensures bottom[j].diff[..] == Gradients(diff[..], alpha, Inside(bottom), Outside(bottom))
    {
      var g := bottom[j].diff;
      Axpby(alpha, diff, 0.0, g);
      CombinationZeroBeta(alpha, diff[..], old(g[..]));
      if hasWeights {
        Mul(bottom[2].data, g, g);
      }
      if hasWeights && |bottom| > 3 {
        Mul(bottom[3].data, g, g);
      }
    }
  }

  /**
   * A forward pass on a batch of one example with two values, sigma = 1 and
   * no weights: residuals 0.3 and 2.0 lie on either side of 1/sigma², so
   * they cost 0.5 · 0.3² = 0.045 and 2.0 − 0.5 = 1.5, and the loss is 1.545.
   */
  method ForwardExample() returns (loss: real)
    ensures loss == 1.545
  {
    var layer := new SmoothL1LossLayer.SetUp(1.0, 2);
    var pred := new Blob(Shape(1, 2, 1, 1));
    var target := new Blob(Shape(1, 2, 1, 1));
    var top := new Blob(Shape(1, 1, 1, 1));
    pred.data[0], pred.data[1] := 0.3, 2.0;
    target.data[0], target.data[1] := 0.0, 0.0;
    var ok := layer.Reshape([pred, target]);
    assert ok;
    layer.Forward([pred, target], [top]);
    loss := top.data[0];
    var d := Residuals([0.3, 2.0], [0.0, 0.0], None);
    assert d == [0.3, 2.0];
    assert Errors(d, 1.0, None) == [0.045, 1.5];
    assert Sum([0.045, 1.5]) == 1.545;
  }
}
