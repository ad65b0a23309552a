/**
 Properties of the PGD loop that relate several calls or hold for a whole
 family of inputs: the projection is the nearest point of the ball, one
 iteration moves an element by at most the step size, the result depends on
 the oracle only at the states the loop reaches, and the end-to-end scenarios
 of a zero budget and of a gradient whose sign never changes.
 */
module PgdProperties {
  import opened Pgd

  /** The clamped value is the point of `[lo, hi]` closest to `v`. */
  lemma ClampIsNearest(v: real, lo: real, hi: real, y: real)
    requires lo <= y <= hi
    ensures Abs(Clamp(v, lo, hi) - v) <= Abs(y - v)
  {
  }

  /**
   `Project` is the Euclidean (and L-infinity) projection onto the ball: for
   every perturbation `y` inside the ball, each element of the projected delta
   is at least as close to the raw perturbation `raw - orig` as `y` is.
   */
  lemma ProjectIsNearest(orig: seq<real>, raw: seq<real>, eps: real, y: seq<real>)
    requires |raw| == |orig| && |y| == |orig|
    requires forall i :: 0 <= i < |y| ==> -eps <= y[i] <= eps
    ensures forall i :: 0 <= i < |orig| ==>
      Abs(Project(orig, raw, eps)[i] - (raw[i] - orig[i])) <= Abs(y[i] - (raw[i] - orig[i]))
  {
    var delta := Project(orig, raw, eps);
    forall i | 0 <= i < |orig|
      ensures Abs(delta[i] - (raw[i] - orig[i])) <= Abs(y[i] - (raw[i] - orig[i]))
    {
      ClampIsNearest(raw[i] - orig[i], -eps, eps, y[i]);
    }
  }

  /**
   From a point inside the ball, one iteration changes no element by more
   than the step size `alpha`: projecting back never undoes more than the step
   did, and never moves the point further.
   */
  lemma StepMovesAtMostAlpha(orig: seq<real>, x: seq<real>, g: seq<real>, alpha: real, eps: real)
    requires eps >= 0.0 && alpha >= 0.0
    requires WithinBall(orig, x, eps) && |g| == |x|
    ensures forall i :: 0 <= i < |x| ==> Abs(Step(orig, x, g, alpha, eps).perturbed[i] - x[i]) <= alpha
  {
    var raw := SignedStep(x, g, alpha);
    var next := Step(orig, x, g, alpha, eps).perturbed;
    forall i | 0 <= i < |x|
      ensures Abs(next[i] - x[i]) <= alpha
    {
      ClampIsNearest(raw[i] - orig[i], -eps, eps, x[i] - orig[i]);
    }
  }

  /**
   The result after `n` iterations depends on the oracle only through its `n`
   answers at steps `0 .. n - 1`, step `k` asked at the state `k` iterations
   left: two oracles that give the same answer at each of those `n` points
   give the same result, whatever they answer anywhere else.
   */
  lemma {:induction false} RunUsesOnlyFirstSteps(orig: seq<real>, g1: Gradient, g2: Gradient, alpha: real, eps: real, n: nat)
    requires forall k: nat :: k < n ==>
      g1(k, Run(orig, g1, alpha, eps, k).perturbed) == g2(k, Run(orig, g1, alpha, eps, k).perturbed)
    ensures Run(orig, g1, alpha, eps, n) == Run(orig, g2, alpha, eps, n)
  {
    if n > 0 {
      RunUsesOnlyFirstSteps(orig, g1, g2, alpha, eps, n - 1);
    }
  }

  /**
   With a zero budget the ball is a single point: after any number of
   iterations the perturbed batch is the original, and every delta the loop
   bound is zero, whatever the oracle returns.
   */
  lemma {:induction false} ZeroBudgetKeepsOriginal(orig: seq<real>, grad: Gradient, alpha: real, n: nat)
    ensures Run(orig, grad, alpha, 0.0, n).perturbed == orig
    ensures n > 0 ==> Run(orig, grad, alpha, 0.0, n).delta == Some(seq(|orig|, i => 0.0))
  {
    var s := Run(orig, grad, alpha, 0.0, n);
    assert WithinBall(orig, s.perturbed, 0.0);
    assert s.perturbed == orig;
    if n > 0 {
      assert s.delta.value == seq(|orig|, i => 0.0);
    }
  }

  /** The oracle's gradient is strictly positive everywhere, at every step. */
  ghost predicate AlwaysAscending(grad: Gradient) {
    forall k: nat, x: seq<real>, i :: 0 <= i < |x| ==> grad(k, x)[i] > 0.0
  }

  /**
   When the gradient's sign is `+1` everywhere at every step, every element of
   the delta grows by `alpha` per iteration until it reaches the budget and
   then stays there: after `n >= 1` iterations it is `min(n * alpha, eps)`.
   */
  lemma {:induction false} ConstantAscent(orig: seq<real>, grad: Gradient, alpha: real, eps: real, n: nat)
    requires AlwaysAscending(grad)
    requires alpha >= 0.0 && eps >= 0.0 && n >= 1
    ensures forall i :: 0 <= i < |orig| ==>
      Run(orig, grad, alpha, eps, n).delta.value[i] == Min(n as real * alpha, eps)
  {
    var prev := Run(orig, grad, alpha, eps, n - 1);
    var g := grad(n - 1, prev.perturbed);
    var raw := SignedStep(prev.perturbed, g, alpha);
    var delta := Run(orig, grad, alpha, eps, n).delta.value;
    assert delta == Project(orig, raw, eps);
    if n > 1 {
      ConstantAscent(orig, grad, alpha, eps, n - 1);
    }
    forall i | 0 <= i < |orig|
      ensures delta[i] == Min(n as real * alpha, eps)
    {
      var before := prev.perturbed[i] - orig[i];
      assert before == if n == 1 then 0.0 else Min((n - 1) as real * alpha, eps);
      assert g[i] > 0.0;
      AscentClamp(before, alpha, eps, n);
    }
  }

  /** One ascending step from `min((n - 1) * alpha, eps)`, clamped to the
      budget, lands on `min(n * alpha, eps)`. */
  lemma AscentClamp(before: real, alpha: real, eps: real, n: nat)
    requires alpha >= 0.0 && eps >= 0.0 && n >= 1
    requires before == if n == 1 then 0.0 else Min((n - 1) as real * alpha, eps)
    ensures Clamp(before + alpha, -eps, eps) == Min(n as real * alpha, eps)
  {
  }

  /** The gradient of the mean of all pixels: `1 / numel` for every pixel. */
  function MeanLossGradient(): Gradient {
    (k: nat, x: seq<real>) => seq(|x|, i requires 0 <= i < |x| => 1.0 / |x| as real)
  }

  /**
   An all-zero batch of shape `[1, 3, 4, 4]`, the loss the mean of the pixels,
   `eps = 0.03`, `alpha = 2/255` and 40 iterations: every element of the delta
   and of the adversarial batch is `0.03`.
   */
  lemma MeanLossScenario()
    ensures var orig := seq(1 * 3 * 4 * 4, i => 0.0);
      var s := Run(orig, MeanLossGradient(), 2.0 / 255.0, 0.03, 40);
      s.delta == Some(seq(48, i => 0.03)) && s.perturbed == seq(48, i => 0.03)
  {
    var orig := seq(1 * 3 * 4 * 4, i => 0.0);
    var s := Run(orig, MeanLossGradient(), 2.0 / 255.0, 0.03, 40);
    ConstantAscent(orig, MeanLossGradient(), 2.0 / 255.0, 0.03, 40);
    assert s.delta.value == seq(48, i => 0.03);
  }

  /**
   No clamp to the pixel range `[0, 1]` follows the projection: a pixel at
   `1.0` pushed upwards leaves the range after one iteration.
   */
  lemma NoPixelRangeClamp()
    ensures Run([1.0], MeanLossGradient(), 2.0 / 255.0, 0.03, 1).perturbed == [1.0 + 2.0 / 255.0]
  {
    var g := MeanLossGradient()(0, [1.0]);
    assert g[0] == 1.0;
    assert SignedStep([1.0], g, 2.0 / 255.0)[0] == 1.0 + 2.0 / 255.0;
  }
}
