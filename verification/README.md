# Smooth-L1 loss layer

A Dafny model of Caffe's `SmoothL1LossLayer`, the Fast/Faster R-CNN bounding-box
regression loss (`src/caffe/layers/smooth_L1_loss_layer.cpp`). The layer takes a
prediction (input 0), a target (input 1) and, optionally, an inside weight
(input 2) and an outside weight (input 3). Its outputs are:

- the forward pass: a scalar loss, the outside-weighted sum over all elements of
  a smooth-L1 kernel applied to the inside-weighted residual, divided by the
  batch size;
- the backward pass: the gradients of that loss with respect to the
  prediction and the target.

Element values are modelled as `real`. The files are:

- `real_algebra.dfy` (`RealAlgebra`): small facts about products of reals that
  the solver does not find on its own.
- `math_functions.dfy` (`MathFunctions`): the BLAS-style helpers the layer
  calls, `caffe_sub`, `caffe_mul`, `caffe_cpu_axpby` and `caffe_cpu_dot`.
  Each is a method with a loop over arrays, proved against an elementwise
  function on sequences (`Difference`, `Product`, `Combination`, `Dot`).
  The file also holds `Sum`.
- `smooth_l1_kernel.dfy` (`SmoothL1Kernel`):
  - the kernel `Huber(v, s2)`, which is `0.5·v²·s2` when |v| < 1/s2 and
    `|v| − 0.5/s2` otherwise, and its derivative `HuberGrad(v, s2)`;
  - the whole-buffer pipeline as sequence functions: `Residuals`, `Errors`,
    `Derivatives` and `Gradients`, where a weight is an
    `Option<seq<real>>` and `None` means "not bound";
  - the properties of both passes, including the fact that the gradient
    the backward pass writes is the derivative of the error the forward pass
    computes.
- `smooth_l1_loss_layer.dfy` (`SmoothL1Loss`): the layer as a class. It has
  two constant fields, `sigma2` and `hasWeights`, and three scratch arrays,
  `diff`, `errors` and `ones`. `SetUp`, `Reshape`, `Forward` and `Backward`
  update them in place. Blobs are objects holding a shape, a data array and a
  gradient (`diff`) array.

`Forward` and `Backward` are proved against the sequence functions. For
example, after `Forward`, `diff[..]` is `Residuals(pred, target, inside)` and
`errors[..]` is `Errors(diff[..], sigma2, outside)`. The kernel lemmas then say
what those values mean.

The source and its own comments disagree in one place. The comment on lines
106-107 gives the derivative as `x` inside the quadratic region. The code on
line 109, which the model follows, writes `sigma2 * x`, the derivative of
`0.5·x²·sigma2`.

## Model

| member | source | states |
|---|---|---|
| SmoothL1Loss.SmoothL1LossLayer.SetUp | src/caffe/layers/smooth_L1_loss_layer.cpp:17-28 | `sigma2` is sigma², strictly positive for any non-zero sigma; weights are used exactly when three or more inputs are bound; the buffers start empty and consistent |
| SmoothL1Loss.SmoothL1LossLayer.Reshape | src/caffe/layers/smooth_L1_loss_layer.cpp:31-57 | Succeeds exactly when the target (and, with weights, the inside weight, and the outside weight if bound) match the prediction in channels, height and width; this layer's own checks do not compare batch sizes. On success `diff`, `errors` and `ones` are new buffers of the prediction's element count and every element of `ones` is 1. On failure nothing changes |
| SmoothL1Loss.SmoothL1LossLayer.Forward | src/caffe/layers/smooth_L1_loss_layer.cpp:60-97 | `diff` holds the inside-weighted residuals and `errors` their outside-weighted kernel values. Only element 0 of the output changes, and it becomes the sum of the errors over the batch size, which is `Loss` of the inputs. That loss is non-negative when the outside weights are. The inputs are unchanged |
| SmoothL1Loss.SmoothL1LossLayer.ForwardResiduals | src/caffe/layers/smooth_L1_loss_layer.cpp:62-74 | `diff` becomes pred − target, multiplied by the inside weight when weights are used |
| SmoothL1Loss.SmoothL1LossLayer.ForwardErrors | src/caffe/layers/smooth_L1_loss_layer.cpp:75-92 | Each element of `errors` becomes the kernel of the matching element of `diff`, multiplied by the outside weight when weights are used and a fourth input is bound |
| SmoothL1Loss.SmoothL1LossLayer.Backward | src/caffe/layers/smooth_L1_loss_layer.cpp:100-143 | `diff` is replaced by the kernel's derivative, each element in [−1, 1]. Each requested gradient of inputs 0 and 1 is replaced, not accumulated, by ±(output gradient / that input's batch size) · derivative, times the bound weights. Unrequested gradients, the gradients of inputs 2 and up, and all input values are unchanged. With equal batch sizes the target's gradient is the negation of the prediction's. A zero inside or outside weight zeroes the gradient at that element |
| SmoothL1Loss.SmoothL1LossLayer.BackwardDerivatives | src/caffe/layers/smooth_L1_loss_layer.cpp:102-113 | Every element of `diff` is overwritten in place by `HuberGrad` of its old value |
| SmoothL1Loss.SmoothL1LossLayer.InputGradients | src/caffe/layers/smooth_L1_loss_layer.cpp:114-142 | For inputs 0 and 1, the gradient is `Gradients(diff, InputScale(j, …), inside, outside)` when requested and its old contents otherwise |
| SmoothL1Loss.SmoothL1LossLayer.InputGradient | src/caffe/layers/smooth_L1_loss_layer.cpp:116-140 | The gradient buffer becomes alpha·diff (beta = 0 discards the old contents), times the inside weight, then the outside weight, when those are bound |
| SmoothL1Kernel.Abs | src/caffe/layers/smooth_L1_loss_layer.cpp:79 | The result is non-negative and equals v or −v |
| SmoothL1Kernel.Sign | src/caffe/layers/smooth_L1_loss_layer.cpp:111 | The result is −1, 0 or 1, is zero exactly for zero, and multiplying it by v gives \|v\| |
| SmoothL1Kernel.Huber | src/caffe/layers/smooth_L1_loss_layer.cpp:77-85 | The per-element error is never negative (for sigma2 > 0) |
| SmoothL1Kernel.HuberGrad | src/caffe/layers/smooth_L1_loss_layer.cpp:104-113 | The derivative lies in [−1, 1], has the sign of v (g·v ≥ 0), and is zero exactly when v is zero |
| SmoothL1Kernel.HuberBranchesAgree | src/caffe/layers/smooth_L1_loss_layer.cpp:80-84 | At \|v\| = 1/sigma2 the quadratic and linear branches both give 0.5/sigma2, so the loss is continuous |
| SmoothL1Kernel.HuberGradBranchesAgree | src/caffe/layers/smooth_L1_loss_layer.cpp:108-112 | At \|v\| = 1/sigma2, `sigma2 * v` equals the sign of v, so the derivative is continuous |
| SmoothL1Kernel.HuberGradIsDerivative | src/caffe/layers/smooth_L1_loss_layer.cpp:104-113 | For every v and w, Huber(w) ≥ Huber(v) + HuberGrad(v)·(w − v). The tangent lies below the kernel, so the kernel is convex. The remainder is at most sigma2·(w − v)²/2, so HuberGrad is the derivative of Huber |
| SmoothL1Kernel.GradientIsDerivativeOfError | src/caffe/layers/smooth_L1_loss_layer.cpp:100-113 | The gradient the backward pass writes for the prediction (unit scale) is the derivative of the error the forward pass computes, for weights of any sign. Moving prediction i by Δ changes error i by gradient·Δ up to at most \|b\|·sigma2·(a·Δ)²/2 either way, where a and b are the inside and outside weights. When b ≥ 0 the change is also at least gradient·Δ (the error is convex in the prediction) |
| SmoothL1Kernel.ErrorsAfterMove | src/caffe/layers/smooth_L1_loss_layer.cpp:63-92 | Moving prediction i changes error i and leaves every other error as it was |
| SmoothL1Kernel.LossAfterMove | src/caffe/layers/smooth_L1_loss_layer.cpp:95-96 | Moving prediction i changes the output gradient times the loss by alpha = output gradient / batch size times the change in error i |
| SmoothL1Kernel.GradientIsDerivativeOfLoss | src/caffe/layers/smooth_L1_loss_layer.cpp:95-139 | The prediction gradient the backward pass writes, with alpha = output gradient / batch size, is the derivative of output gradient times the reported loss: moving prediction i by Δ changes that product by gradient·Δ up to at most \|alpha·b\|·sigma2·(a·Δ)²/2 either way |
| SmoothL1Kernel.InputScale | src/caffe/layers/smooth_L1_loss_layer.cpp:116-117 | The target's scale is the negation of the prediction's, and a scale is zero exactly when the output gradient is |
| SmoothL1Kernel.ResidualAt | src/caffe/layers/smooth_L1_loss_layer.cpp:63-73 | Residual element i is the inside weight (1 if unbound) times pred[i] − target[i] |
| SmoothL1Kernel.ErrorAt | src/caffe/layers/smooth_L1_loss_layer.cpp:77-91 | Error element i is the outside weight (1 if unbound) times the kernel of residual i |
| SmoothL1Kernel.GradientAt | src/caffe/layers/smooth_L1_loss_layer.cpp:118-139 | Gradient element i is outside weight · (inside weight · (alpha · HuberGrad(residual i))) |
| SmoothL1Kernel.ErrorsNonNegative | src/caffe/layers/smooth_L1_loss_layer.cpp:77-92 | With no outside weight, or with non-negative ones, every element of `errors` is non-negative |
| SmoothL1Kernel.ZeroInsideWeightCancels | src/caffe/layers/smooth_L1_loss_layer.cpp:68-85 | A zero inside weight at element i makes the residual and the error there zero, whatever the prediction and target |
| SmoothL1Kernel.ZeroOutsideWeightCancels | src/caffe/layers/smooth_L1_loss_layer.cpp:86-92 | A zero outside weight at element i makes the error there zero |
| SmoothL1Kernel.ZeroWeightCancelsGradient | src/caffe/layers/smooth_L1_loss_layer.cpp:125-140 | A zero inside or outside weight at element i makes the gradient there zero, whatever the derivative and scale |
| SmoothL1Kernel.GradientsNegate | src/caffe/layers/smooth_L1_loss_layer.cpp:116-117 | Negating the scale negates every element of the masked gradient |
| MathFunctions.Sub | src/caffe/layers/smooth_L1_loss_layer.cpp:63-67 | The output array holds a − b element by element; the inputs are unchanged |
| MathFunctions.Mul | src/caffe/layers/smooth_L1_loss_layer.cpp:69-73 | The output array holds a · b element by element, where b is read before being overwritten (the call sites pass the output as b) |
| MathFunctions.Axpby | src/caffe/layers/smooth_L1_loss_layer.cpp:118-124 | The output array holds alpha·x + beta·(its old contents) element by element |
| MathFunctions.CombinationZeroBeta | src/caffe/layers/smooth_L1_loss_layer.cpp:118-124 | With beta = 0 the result is alpha·x whatever the old contents were: the gradient is replaced, not accumulated |
| MathFunctions.CpuDot | src/caffe/layers/smooth_L1_loss_layer.cpp:95-96 | The loop's result is the dot product of the two arrays |
| MathFunctions.DotWithOnes | src/caffe/layers/smooth_L1_loss_layer.cpp:95-96 | A dot product with an all-ones buffer is the plain sum |
| MathFunctions.SumNonNegative | src/caffe/layers/smooth_L1_loss_layer.cpp:95-96 | A sum of non-negative elements is non-negative |
| MathFunctions.SumUpdate | src/caffe/layers/smooth_L1_loss_layer.cpp:95-96 | Replacing element i of a sequence by x changes its sum by x minus the old element |
| SmoothL1Loss.ForwardExample | src/caffe/layers/smooth_L1_loss_layer.cpp:17-97 | Set up with sigma = 1 and two inputs, reshaped to a batch of one example with two values, the forward pass on prediction [0.3, 2.0] and target [0, 0] reports 0.045 + 1.5 = 1.545: one residual on each side of 1/sigma² |

## Left out

- `src/caffe/layers/round_layer.cpp` is not part of this model. It is a loop over libm `rint`, whose result depends on the floating-point rounding mode.
- IEEE floating-point effects: rounding error, NaN and infinity. Values are reals, and sigma = 0 (which would divide by zero) is excluded by `SetUp`'s precondition.
- The base-class `LossLayer::LayerSetUp` and `LossLayer::Reshape` calls (lines 19 and 33) are not modelled. Nor is reading `sigma` from the protobuf parameter (line 20): sigma and the number of inputs are `SetUp`'s parameters. The reshaping of the output blob is not modelled either; `Forward` requires an output with at least one element.
- Blob memory management and CPU/GPU synchronisation. A reshaped buffer is a freshly allocated array of the required length, and its contents other than `ones` are unspecified.
- SmoothL1Loss.SmoothL1LossLayer.Reshape: a failed `CHECK_EQ` aborts the process in the source; here it returns `ok = false` and leaves the layer unchanged.
- SmoothL1Loss.SmoothL1LossLayer.Forward: this layer's `Reshape` (lines 34-46) never compares batch sizes, yet both passes read `count` elements from every bound input. The model therefore requires every input's data, and every written gradient, to have the length of `diff`. It also requires a non-zero batch size, since the source would divide by it.
- SmoothL1Loss.SmoothL1LossLayer.Backward: the same length requirement applies. It requires a non-zero batch size for each requested input, and that the gradient buffers it writes are distinct from every buffer it reads. The source does not state these aliasing conditions; Caffe's blobs satisfy them in practice.
- MathFunctions.Sub, MathFunctions.Axpby: require the output to be distinct from the inputs. `caffe_sub` and `caffe_cpu_axpby` also allow in-place use, but the layer's call sites never alias them.
- MathFunctions.Mul: only the in-place form that the layer uses (output = second operand) or fully separate arrays are allowed; an output aliasing the first operand is excluded.
- The GPU stubs and the layer registration macros (lines 145-150) are not modelled, and neither is the commented-out SSD variant that sums absolute errors (lines 93-94).
- The loss weight: Caffe sets the output's gradient from the layer's loss weight outside this file. Here `top[0].diff[0]` is simply an input.
