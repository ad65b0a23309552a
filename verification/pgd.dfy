/**
 The per-batch Projected Gradient Descent loop of `gen_perturbed_imgs`, over
 idealised real arithmetic. A batch of images is one flat sequence of reals;
 every operation is elementwise, so the sequence keeps the batch's shape.

 The loss gradient (the model's forward pass, `zero_grad` and `backward`) is
 an arbitrary oracle: given the step number and the current perturbed batch it
 returns a gradient of the same length. Every guarantee below holds for every
 such oracle.
 */
module Pgd {

  datatype Option<T> = None | Some(value: T)

  /** A loss gradient with respect to the input: one entry per input element. */
  type Gradient = g: (nat, seq<real>) -> seq<real>
    | forall k: nat, x: seq<real> :: |g(k, x)| == |x|
    witness (k: nat, x: seq<real>) => x

  /** The state of the loop after some number of iterations: the current
      perturbed batch and the `delta` bound by the last iteration, if any ran. */
  datatype Iterate = Iterate(perturbed: seq<real>, delta: Option<seq<real>>)

  function Abs(v: real): real {
    if v < 0.0 then -v else v
  }

  function Min(a: real, b: real): real {
    if a <= b then a else b
  }

  /** `torch.sign` on one element. */
  function Sign(v: real): (s: real)
    ensures s == -1.0 || s == 0.0 || s == 1.0
    ensures s * v == Abs(v)
    ensures s == 0.0 <==> v == 0.0
  {
    if v > 0.0 then 1.0 else if v < 0.0 then -1.0 else 0.0
  }

  /** `torch.clamp(v, min=lo, max=hi)`: the lower bound is applied first, so when
      `lo > hi` the result is `hi`. */
  function Clamp(v: real, lo: real, hi: real): (r: real)
    ensures lo <= hi ==> lo <= r <= hi
    ensures lo <= v <= hi ==> r == v
    ensures lo <= hi && v < lo ==> r == lo
    ensures lo <= hi && v > hi ==> r == hi
    ensures lo > hi ==> r == hi
  {
    if v < lo then (if lo <= hi then lo else hi)
    else if v > hi then hi
    else v
  }

  /** Every element of `x` is within `eps` of the element of `orig` at the same
      index: the closed L-infinity ball of radius `eps` around `orig`. */
  predicate WithinBall(orig: seq<real>, x: seq<real>, eps: real) {
    |x| == |orig| && forall i :: 0 <= i < |x| ==> -eps <= x[i] - orig[i] <= eps
  }

  /** `perturbed_images.detach() + alpha * torch.sign(grad)`: the unprojected
      ascent step. */
  function SignedStep(x: seq<real>, g: seq<real>, alpha: real): (r: seq<real>)
    requires |g| == |x|
    ensures |r| == |x|
    ensures forall i :: 0 <= i < |x| ==> r[i] == x[i] + alpha || r[i] == x[i] - alpha || r[i] == x[i]
    ensures forall i :: 0 <= i < |x| && g[i] == 0.0 ==> r[i] == x[i]
    ensures alpha > 0.0 ==> forall i :: 0 <= i < |x| ==> (r[i] > x[i] <==> g[i] > 0.0)
    ensures alpha > 0.0 ==> forall i :: 0 <= i < |x| ==> (r[i] < x[i] <==> g[i] < 0.0)
  {
    seq(|x|, i requires 0 <= i < |x| => x[i] + alpha * Sign(g[i]))
  }

  /** `torch.clamp(raw - orig, min=-eps, max=eps)`: the perturbation of `raw`
      projected onto the ball of radius `eps`. */
  function Project(orig: seq<real>, raw: seq<real>, eps: real): (delta: seq<real>)
    requires |raw| == |orig|
    ensures |delta| == |orig|
    ensures eps >= 0.0 ==> forall i :: 0 <= i < |delta| ==> -eps <= delta[i] <= eps
    ensures forall i :: 0 <= i < |delta| && -eps <= raw[i] - orig[i] <= eps ==> delta[i] == raw[i] - orig[i]
    ensures forall i :: 0 <= i < |delta| && raw[i] - orig[i] > eps ==> delta[i] == eps
    ensures eps >= 0.0 ==> forall i :: 0 <= i < |delta| && raw[i] - orig[i] < -eps ==> delta[i] == -eps
    ensures eps < 0.0 ==> forall i :: 0 <= i < |delta| ==> delta[i] == eps
  {
    seq(|orig|, i requires 0 <= i < |orig| => Clamp(raw[i] - orig[i], -eps, eps))
  }

  /** One iteration of the loop body: signed step, projection of the difference
      from the original, and `perturbed = orig + delta`. */
  function Step(orig: seq<real>, x: seq<real>, g: seq<real>, alpha: real, eps: real): (r: Iterate)
    requires |x| == |orig| && |g| == |x|
    ensures r.delta.Some? && |r.delta.value| == |orig|
    ensures |r.perturbed| == |orig|
    ensures forall i :: 0 <= i < |orig| ==> r.perturbed[i] == orig[i] + r.delta.value[i]
    ensures eps >= 0.0 ==> WithinBall(orig, r.perturbed, eps)
  {
    var delta := Project(orig, SignedStep(x, g, alpha), eps);
    Iterate(seq(|orig|, i requires 0 <= i < |orig| => orig[i] + delta[i]), Some(delta))
  }

  /**
   The state after `n` iterations of the loop, started from
   `perturbed_images = orig_images`. Iteration `k` (counting from 0) asks the
   oracle for the gradient at the state left by iteration `k - 1`.
   */
  function Run(orig: seq<real>, grad: Gradient, alpha: real, eps: real, n: nat): (s: Iterate)
    ensures |s.perturbed| == |orig|
    ensures s.delta.None? <==> n == 0
    ensures n == 0 ==> s.perturbed == orig
    ensures s.delta.Some? ==> |s.delta.value| == |orig|
    ensures s.delta.Some? ==> forall i :: 0 <= i < |orig| ==> s.perturbed[i] == orig[i] + s.delta.value[i]
    ensures eps >= 0.0 ==> WithinBall(orig, s.perturbed, eps)
    ensures eps >= 0.0 && s.delta.Some? ==> forall i :: 0 <= i < |orig| ==> -eps <= s.delta.value[i] <= eps
  {
    if n == 0 then Iterate(orig, None)
    else
      var prev := Run(orig, grad, alpha, eps, n - 1);
      Step(orig, prev.perturbed, grad(n - 1, prev.perturbed), alpha, eps)
  }

  /**
   The loop as the source writes it: a counter from 0 to `numIterations`, the
   perturbed batch replaced on every pass and `delta` rebound on every pass.
   */
  method Attack(orig: seq<real>, grad: Gradient, alpha: real, eps: real, numIterations: nat)
    returns (perturbed: seq<real>, delta: Option<seq<real>>)
    ensures Iterate(perturbed, delta) == Run(orig, grad, alpha, eps, numIterations)
    ensures |perturbed| == |orig|
    ensures eps >= 0.0 ==> WithinBall(orig, perturbed, eps)
    ensures numIterations > 0 ==> delta.Some? && |delta.value| == |orig|
    ensures numIterations > 0 ==> forall i :: 0 <= i < |orig| ==> perturbed[i] == orig[i] + delta.value[i]
  {
    perturbed := orig;
    delta := None;
    var k := 0;
    while k < numIterations
      invariant k <= numIterations
      invariant Iterate(perturbed, delta) == Run(orig, grad, alpha, eps, k)
    {
      var g := grad(k, perturbed);
      var raw := SignedStep(perturbed, g, alpha);
      var d := Project(orig, raw, eps);
      perturbed := seq(|orig|, i requires 0 <= i < |orig| => orig[i] + d[i]);
      delta := Some(d);
      k := k + 1;
    }
  }
}
