/**
 The budget sweep of `gen_perturbed_imgs`: for each budget in list order, the
 whole data set is attacked batch by batch, each attack starting afresh from
 the batch's own pixels; the final perturbed batch is denormalized and handed
 over, together with the final delta and the sample names, to be saved. A
 raised error ends the whole sweep; what was handed over before it stays.
 */
module Sweep {
  import opened Tensors
  import opened Pgd
  import opened Denormalize

  /** The attack's hyperparameters. */
  datatype Config = Config(epsilons: seq<real>, alpha: real, iterations: nat)

  /** The values `gen_perturbed_imgs` hardcodes. */
  const Hardcoded: Config := Config([0.01, 0.03, 0.1, 0.5], 2.0 / 255.0, 40)

  /** One batch from the test loader. Only the pixels are attacked; the other
      fields go to the model unchanged. */
  datatype Batch = Batch(
    pixels: Tensor,
    names: seq<string>,
    mask: seq<real>,
    attentionMask: seq<int>,
    inputIds: seq<int>)

  /** The model's loss gradient with respect to the pixels, given the batch's
      other fields, the iteration number and the current pixels. */
  type LossGradient = m: (Batch, nat, seq<real>) -> seq<real>
    | forall b: Batch, k: nat, x: seq<real> :: |m(b, k, x)| == |x|
    witness (b: Batch, k: nat, x: seq<real>) => x

  /** What one batch hands over for saving at one budget. */
  datatype BatchOutput = BatchOutput(eps: real, names: seq<string>, adversarial: Tensor, delta: Tensor)

  datatype BatchResult = Handed(output: BatchOutput) | Failed(error: ShapeError)

  /** The outputs handed over, in order, and the error that ended the sweep, if any. */
  datatype SweepResult = SweepResult(outputs: seq<BatchOutput>, error: Option<ShapeError>)

  /** The delta of an output lies within the output's own budget. */
  predicate DeltaWithinBudget(o: BatchOutput) {
    o.eps >= 0.0 ==> forall i :: 0 <= i < |o.delta.data| ==> -o.eps <= o.delta.data[i] <= o.eps
  }

  /** Both normalization parameters fit the batch's pixel tensor. */
  predicate Denormalizable(b: Batch, mean: seq<real>, std: seq<real>) {
    Applicable(b.pixels, std) && Applicable(b.pixels, mean)
  }

  predicate AllValid(batches: seq<Batch>) {
    forall b :: 0 <= b < |batches| ==> batches[b].pixels.Valid()
  }

  /** The oracle the PGD loop sees for one batch. */
  function GradientFor(model: LossGradient, batch: Batch): Gradient {
    (k: nat, x: seq<real>) => model(batch, k, x)
  }

  /** The PGD loop run on one batch's pixels at one budget. */
  function AttackOf(cfg: Config, model: LossGradient, batch: Batch, eps: real): Iterate {
    Run(batch.pixels.data, GradientFor(model, batch), cfg.alpha, eps, cfg.iterations)
  }

  /**
   Attack one batch at one budget and denormalize the result. The delta keeps
   the batch's shape and lies within the budget; the adversarial image is the
   denormalization of `orig + delta`, never clamped to a pixel range.
   */
  function AttackBatch(cfg: Config, model: LossGradient, batch: Batch, eps: real,
                       mean: seq<real>, std: seq<real>): (r: BatchResult)
    requires batch.pixels.Valid() && cfg.iterations > 0
    ensures r.Handed? <==> Denormalizable(batch, mean, std)
    ensures r.Handed? ==> r.output.eps == eps && r.output.names == batch.names
    ensures r.Handed? ==> r.output.delta.shape == batch.pixels.shape && r.output.delta.Valid()
    ensures r.Handed? ==> r.output.adversarial.shape == batch.pixels.shape && r.output.adversarial.Valid()
    ensures r.Handed? ==> DeltaWithinBudget(r.output)
    ensures r.Handed? ==> forall i :: 0 <= i < |batch.pixels.data| ==>
      var c := ChannelOf(batch.pixels.shape, i);
      r.output.adversarial.data[i]
        == (batch.pixels.data[i] + r.output.delta.data[i]) * ParamAt(std, c) + ParamAt(mean, c)
    ensures r.Handed? ==> Some(r.output.delta.data) == AttackOf(cfg, model, batch, eps).delta
  {
    var orig := batch.pixels;
    var s := AttackOf(cfg, model, batch, eps);
    match Denorm(Tensor(orig.shape, s.perturbed), mean, std)
    case Denormalized(img) => Handed(BatchOutput(eps, batch.names, img, Tensor(orig.shape, s.delta.value)))
    case Raised(e, _) => Failed(e)
  }

  /** One budget: every batch in loader order, stopping at the first error. */
  function BudgetPass(cfg: Config, model: LossGradient, eps: real, batches: seq<Batch>,
                      mean: seq<real>, std: seq<real>): (r: SweepResult)
    requires AllValid(batches) && cfg.iterations > 0
    ensures r.error.None? <==> forall b :: 0 <= b < |batches| ==> Denormalizable(batches[b], mean, std)
    ensures r.error.None? ==> |r.outputs| == |batches|
    ensures r.error.Some? ==> |r.outputs| < |batches|
    ensures forall j :: 0 <= j < |r.outputs| ==>
      AttackBatch(cfg, model, batches[j], eps, mean, std) == Handed(r.outputs[j])
    ensures r.error.Some? ==>
      AttackBatch(cfg, model, batches[|r.outputs|], eps, mean, std) == Failed(r.error.value)
    decreases |batches|
  {
    if |batches| == 0 then SweepResult([], None)
    else
      match AttackBatch(cfg, model, batches[0], eps, mean, std)
      case Failed(e) => SweepResult([], Some(e))
      case Handed(o) =>
        var rest := BudgetPass(cfg, model, eps, batches[1..], mean, std);
        SweepResult([o] + rest.outputs, rest.error)
  }

  /** The budgets in list order, each over the whole data set, stopping at the
      first error. */
  function SweepFrom(cfg: Config, model: LossGradient, epsilons: seq<real>, batches: seq<Batch>,
                     mean: seq<real>, std: seq<real>): (r: SweepResult)
    requires AllValid(batches) && cfg.iterations > 0
    ensures r.error.None? <==>
      |epsilons| == 0 || forall b :: 0 <= b < |batches| ==> Denormalizable(batches[b], mean, std)
    ensures r.error.None? ==> |r.outputs| == |epsilons| * |batches|
    ensures forall k :: 0 <= k < |r.outputs| ==> r.outputs[k].eps in epsilons && DeltaWithinBudget(r.outputs[k])
    ensures r.error.Some? ==> |epsilons| > 0 && r == BudgetPass(cfg, model, epsilons[0], batches, mean, std)
    decreases |epsilons|
  {
    if |epsilons| == 0 then SweepResult([], None)
    else
      var pass := BudgetPass(cfg, model, epsilons[0], batches, mean, std);
      if pass.error.Some? then pass
      else
        var rest := SweepFrom(cfg, model, epsilons[1..], batches, mean, std);
        SweepResult(pass.outputs + rest.outputs, rest.error)
  }

  /** The sweep over the configured budgets. */
  function RunSweep(cfg: Config, model: LossGradient, batches: seq<Batch>,
                    mean: seq<real>, std: seq<real>): (r: SweepResult)
    requires AllValid(batches) && cfg.iterations > 0
    ensures r.error.None? <==>
      |cfg.epsilons| == 0 || forall b :: 0 <= b < |batches| ==> Denormalizable(batches[b], mean, std)
    ensures forall k :: 0 <= k < |r.outputs| ==> r.outputs[k].eps in cfg.epsilons && DeltaWithinBudget(r.outputs[k])
  {
    SweepFrom(cfg, model, cfg.epsilons, batches, mean, std)
  }

  /** Blocks laid end to end. */
  function Flatten<T>(blocks: seq<seq<T>>): (r: seq<T>)
  {
    if |blocks| == 0 then [] else blocks[0] + Flatten(blocks[1..])
  }

  /** In blocks of `n` elements each, element `b` of block `j` sits at `j * n + b`. */
  lemma {:induction false} FlattenIndex<T>(blocks: seq<seq<T>>, n: nat, j: nat, b: nat)
    requires forall p :: 0 <= p < |blocks| ==> |blocks[p]| == n
    requires j < |blocks| && b < n
    ensures j * n + b < |Flatten(blocks)| && Flatten(blocks)[j * n + b] == blocks[j][b]
  {
    var rest := Flatten(blocks[1..]);
    assert Flatten(blocks) == blocks[0] + rest;
    if j > 0 {
      FlattenIndex(blocks[1..], n, j - 1, b);
      assert j * n + b == n + ((j - 1) * n + b) by {
        MulSucc(j - 1, n);
      }
    }
  }

  lemma MulSucc(a: nat, n: nat)
    ensures (a + 1) * n == a * n + n
  {
  }

  /** The outputs of each budget's pass over the data set, in list order. */
  function Passes(cfg: Config, model: LossGradient, epsilons: seq<real>, batches: seq<Batch>,
                  mean: seq<real>, std: seq<real>): seq<seq<BatchOutput>>
    requires AllValid(batches) && cfg.iterations > 0
  {
    seq(|epsilons|, j requires 0 <= j < |epsilons| =>
      BudgetPass(cfg, model, epsilons[j], batches, mean, std).outputs)
  }

  /** A completed sweep is the budgets' passes laid end to end. */
  lemma {:induction false} SweepIsPasses(cfg: Config, model: LossGradient, epsilons: seq<real>, batches: seq<Batch>,
                                         mean: seq<real>, std: seq<real>)
    requires AllValid(batches) && cfg.iterations > 0
    requires SweepFrom(cfg, model, epsilons, batches, mean, std).error.None?
    ensures SweepFrom(cfg, model, epsilons, batches, mean, std).outputs
         == Flatten(Passes(cfg, model, epsilons, batches, mean, std))
  {
    if |epsilons| > 0 {
      SweepIsPasses(cfg, model, epsilons[1..], batches, mean, std);
      var ps := Passes(cfg, model, epsilons, batches, mean, std);
      assert ps[1..] == Passes(cfg, model, epsilons[1..], batches, mean, std);
    }
  }

  /**
   A completed sweep hands over exactly one output per (budget, batch) pair,
   budget-major: the output at position `j * |batches| + b` is the attack of
   batch `b` at budget `j`, computed from that batch and that budget alone.
   */
  lemma SweepOrder(cfg: Config, model: LossGradient, epsilons: seq<real>, batches: seq<Batch>,
                   mean: seq<real>, std: seq<real>, j: nat, b: nat)
    requires AllValid(batches) && cfg.iterations > 0
    requires j < |epsilons| && b < |batches|
    requires SweepFrom(cfg, model, epsilons, batches, mean, std).error.None?
    ensures j * |batches| + b < |SweepFrom(cfg, model, epsilons, batches, mean, std).outputs|
    ensures AttackBatch(cfg, model, batches[b], epsilons[j], mean, std)
         == Handed(SweepFrom(cfg, model, epsilons, batches, mean, std).outputs[j * |batches| + b])
  {
    SweepIsPasses(cfg, model, epsilons, batches, mean, std);
    var ps := Passes(cfg, model, epsilons, batches, mean, std);
    forall p | 0 <= p < |ps|
      ensures |ps[p]| == |batches|
    {
      assert BudgetPass(cfg, model, epsilons[p], batches, mean, std).error.None?;
    }
    FlattenIndex(ps, |batches|, j, b);
  }

  /**
   With the hardcoded hyperparameters every output is handed over at one of
   the four budgets, in `(0, 0.5]`, and its delta lies within its budget.
   */
  lemma HardcodedSweepBounds(model: LossGradient, batches: seq<Batch>, mean: seq<real>, std: seq<real>)
    requires AllValid(batches)
    ensures forall o :: o in RunSweep(Hardcoded, model, batches, mean, std).outputs ==>
      && 0.0 < o.eps <= 0.5
      && forall i :: 0 <= i < |o.delta.data| ==> -0.5 <= o.delta.data[i] <= 0.5
  {
    var r := RunSweep(Hardcoded, model, batches, mean, std);
    forall o | o in r.outputs
      ensures 0.0 < o.eps <= 0.5
      ensures forall i :: 0 <= i < |o.delta.data| ==> -0.5 <= o.delta.data[i] <= 0.5
    {
      assert o.eps in Hardcoded.epsilons && DeltaWithinBudget(o);
    }
  }

  /**
   The hardcoded hyperparameters form a valid configuration: four strictly
   positive budgets in increasing order, a positive step and a positive
   iteration count.
   */
  lemma HardcodedIsValid()
    ensures |Hardcoded.epsilons| == 4
    ensures forall j :: 0 <= j < |Hardcoded.epsilons| ==> Hardcoded.epsilons[j] > 0.0
    ensures forall j :: 0 < j < |Hardcoded.epsilons| ==> Hardcoded.epsilons[j - 1] < Hardcoded.epsilons[j]
    ensures Hardcoded.alpha > 0.0 && Hardcoded.iterations > 0
  {
  }
}
