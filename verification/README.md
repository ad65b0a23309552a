# PGD perturbation engine, modelled in Dafny

This project models the core of `src/pgd.py`, the script that generates
adversarial images with untargeted L-infinity Projected Gradient Descent
(PGD). It covers three pieces:

- The per-batch attack loop in `gen_perturbed_imgs`. It starts from a copy of
  the original pixels. Each iteration takes a step of size `alpha` along the
  sign of the loss gradient. It then clamps the difference from the original
  to `[-eps, eps]` and rebuilds the image as `orig + delta`.
- `denormalize`. It computes `x * std[c] + mean[c]` per channel, in place,
  broadcasting over the spatial dimensions.
- The sweep over the budget list. Every budget is run over the whole data set,
  batch by batch, and each attack starts afresh from the batch's own pixels.

All arithmetic is on Dafny `real`, which is exact; nothing models IEEE
rounding. Tensors are flat row-major `seq<real>`. Where the channel matters,
a tensor is a `Tensor(shape, data)`. The model's loss gradient (forward pass,
`zero_grad`, `backward`) is a black box. It is an arbitrary function
parameter `Pgd.Gradient` that receives the iteration number and the current
perturbed batch and returns a gradient of the same length. Every guarantee
holds for every such oracle. Values are immutable, so `orig_images` cannot be
changed by the loop: the original batch is a value parameter of every
function.

Files:

- `tensors.dfy`: tensor shape, element count, and the channel of a flat
  position.
- `pgd.dfy`: `torch.sign`, `torch.clamp`, the signed step, the projection,
  one iteration, the loop as a recursive function (`Run`), and the loop as a
  counted `while` (`Attack`).
- `pgd_properties.dfy`: the projection is the nearest point of the ball; one
  step moves each element by at most `alpha`; the result depends on the oracle
  only at the points the loop asks; the zero-budget and constant-gradient scenarios; the
  absence of a `[0, 1]` clamp.
- `denormalize.dfy`: `denormalize` with its broadcast and error behaviour,
  and round trips with the normalization it reverses.
- `sweep.dfy`: the hardcoded hyperparameters, the per-batch attack followed by
  denormalization, and the budget-major sweep.

The model follows the code in these points, which a reader might not expect:

- `denormalize` is not side-effect free. It overwrites its argument with `mul_`
  and then `add_`. When `mean` has the wrong length, the image has already been
  scaled by `std` when the error is raised. `Denormalize.Denorm` returns that
  buffer in its `Raised` case, as `Denormalize.DenormRaises` states.
- A parameter with a single entry is accepted for any channel count, because
  it broadcasts. The accepted lengths are exactly the channel count and 1.
- The denormalization is applied to the final perturbed batch itself, not to
  a copy. Nothing reads that batch afterwards.
- The iteration count and budgets are hardcoded constants (`Sweep.Hardcoded`).
  They are not a validated configuration record.

## Model

| member | source | states |
|---|---|---|
| `Pgd.Sign` | src/pgd.py:150 | `torch.sign` yields -1, 0 or 1, and it is 0 exactly for a zero gradient, and `s * v` is the absolute value of `v` |
| `Pgd.Clamp` | src/pgd.py:152 | `torch.clamp` lands in `[lo, hi]`, keeps values already inside, sends values below to `lo` and above to `hi`, and yields `hi` everywhere when `lo > hi` |
| `Pgd.SignedStep` | src/pgd.py:150-151 | before projection, each element moves by exactly `+alpha`, `-alpha` or 0; it stays put where the gradient is zero; for `alpha > 0` it goes up exactly where the gradient is positive and down exactly where it is negative |
| `Pgd.Project` | src/pgd.py:152 | for `eps >= 0` the delta lies in `[-eps, eps]`; inside the ball it equals `raw - orig`; outside it is the nearer bound; for `eps < 0` it is `eps` everywhere |
| `Pgd.Step` | src/pgd.py:150-154 | one iteration binds a delta of the batch's length, sets `perturbed[i] == orig[i] + delta[i]`, and for `eps >= 0` lands in the eps-ball whatever the gradient |
| `Pgd.Run` | src/pgd.py:138-154 | after `n` iterations from `perturbed = orig`: the length is kept; a delta is bound exactly when `n > 0`; `perturbed == orig + delta` elementwise; for `eps >= 0` the delta and `perturbed - orig` lie in `[-eps, eps]` for every oracle |
| `Pgd.Attack` | src/pgd.py:138-154 | the counted loop runs exactly `numIterations` iterations: its result equals `Run` for that count, so by `RunUsesOnlyFirstSteps` it depends on the oracle only at the `numIterations` states the loop reaches; it keeps the L-infinity bound and leaves the last iteration's delta with `perturbed == orig + delta` |
| `PgdProperties.ClampIsNearest` | src/pgd.py:152 | the clamped value is at least as close to the input as any point of `[lo, hi]` |
| `PgdProperties.ProjectIsNearest` | src/pgd.py:152 | the projected delta is, element by element, the point of the eps-ball nearest to the raw perturbation |
| `PgdProperties.StepMovesAtMostAlpha` | src/pgd.py:150-154 | from a point in the ball, one iteration changes no element by more than `alpha` |
| `PgdProperties.RunUsesOnlyFirstSteps` | src/pgd.py:142-150 | the state after `n` iterations depends on the oracle only through its answers at the `n` points the loop asks: step `k` at the state `k` iterations left, for `k` below `n`; two oracles that agree there give the same state whatever they answer elsewhere |
| `PgdProperties.ZeroBudgetKeepsOriginal` | src/pgd.py:152-154 | with `eps = 0`, after any number of iterations the perturbed batch equals the original and every bound delta is all zeros |
| `PgdProperties.ConstantAscent` | src/pgd.py:142-154 | when the gradient is positive everywhere at every step, the delta after `n >= 1` iterations is `min(n * alpha, eps)` in every element |
| `PgdProperties.MeanLossScenario` | src/pgd.py:114-154 | all-zero `[1,3,4,4]` batch, mean-of-pixels loss, `eps = 0.03`, `alpha = 2/255`, 40 iterations: delta and adversarial batch are `0.03` everywhere |
| `PgdProperties.NoPixelRangeClamp` | src/pgd.py:153-154 | no `[0, 1]` clamp follows the projection: a pixel at 1.0 pushed up ends at `1 + 2/255` |
| `Tensors.ChannelOf` | src/pgd.py:171 | the channel of any element of a `[..., C, H, W]` tensor is below `C` |
| `Tensors.ChannelOfCoordinates` | src/pgd.py:171 | the element at `(l, c, h, w)` lies in the data and belongs to channel `c` for every `l`, `h`, `w`, so `p[:, None, None]` reaches exactly its own channel |
| `Denormalize.ScaleAtCoordinate` | src/pgd.py:171 | `mul_` with `std[:, None, None]` keeps the shape and multiplies the element at `(l, c, h, w)` of a `lead + [C, H, W]` image by `std[c]` (or the single entry) for every batch and spatial position |
| `Denormalize.ShiftAtCoordinate` | src/pgd.py:171 | `add_` with `mean[:, None, None]` keeps the shape and adds `mean[c]` (or the single entry) to the element at `(l, c, h, w)` for every batch and spatial position |
| `Denormalize.Denorm` | src/pgd.py:164-171 | succeeds exactly when rank >= 3 and `mean` and `std` each have length C or 1; then the shape is kept and each element becomes `x * std[c] + mean[c]`; a rank or `std` error leaves the buffer untouched; a `mean` error leaves it scaled by `std` |
| `Denormalize.DenormRaises` | src/pgd.py:164-171 | the error follows the order of the checks: a rank below 3 raises with the image untouched; otherwise a `std` that does not fit raises with the image untouched; a `std` that fits with a `mean` that does not raises after the image has been scaled by `std` in place |
| `Denormalize.DenormalizeAfterNormalize` | src/pgd.py:164-171 | with every `std` entry non-zero, denormalizing `(x - mean[c]) / std[c]` gives back `x` exactly |
| `Denormalize.NormalizeAfterDenormalize` | src/pgd.py:164-171 | with every `std` entry non-zero, normalizing the denormalized image gives back the image, so `denormalize` is invertible |
| `Denormalize.DenormalizeAtCoordinate` | src/pgd.py:169-171 | in a `lead + [C, H, W]` image, the element at `(l, c, h, w)` becomes `x * std[c] + mean[c]` for every batch and spatial position |
| `Sweep.AttackBatch` | src/pgd.py:137-157 | a batch's result is handed over exactly when its shape fits `mean` and `std`; the delta handed over is the one the PGD loop bound in its last iteration on that batch's pixels, keeps the batch's shape and lies in `[-eps, eps]`; the adversarial image is the denormalization of `orig + delta`; names pass through |
| `Sweep.BudgetPass` | src/pgd.py:129-157 | one budget hands over one output per batch in loader order, each the attack of that batch at that budget, and stops at the first batch whose shape does not fit; the error reported is that batch's own, and it is the batch right after the outputs handed over |
| `Sweep.SweepFrom` | src/pgd.py:119-157 | the sweep completes exactly when there is no budget or every batch fits; then it hands over one output per budget and batch; every output carries a listed budget and a delta within it; when it fails, it fails in the first budget's pass, with what that pass handed over before the error |
| `Sweep.RunSweep` | src/pgd.py:116-157 | the sweep over the configured budget list completes exactly when the budget list is empty or every batch fits, and every output is within its listed budget |
| `Sweep.SweepIsPasses` | src/pgd.py:119-157 | a completed sweep is the per-budget passes laid end to end in list order |
| `Sweep.SweepOrder` | src/pgd.py:119-157 | a completed sweep's output at position `j * B + b` (with `B` batches) is the attack of batch `b` at budget `j`, computed from that batch and that budget only |
| `Sweep.HardcodedIsValid` | src/pgd.py:114-116 | the hardcoded values are four positive budgets in increasing order, a positive step and a positive iteration count |
| `Sweep.HardcodedSweepBounds` | src/pgd.py:114-157 | with the hardcoded budgets, every output's budget is in `(0, 0.5]` and its delta in `[-0.5, 0.5]` |

## Left out

- IEEE floating point: float32 arithmetic and matmul precision (src/pgd.py:53), rounding in the step, clamp and denormalization, and the `.double()` conversion before saving. All arithmetic is exact `real`.
- Autodiff: `model.step`, `loss.backward`, `zero_grad` and `requires_grad` (src/pgd.py:143-148) are foreign torch and Lightning calls. They are replaced by the gradient oracle, which always returns a finite gradient. A loss that does not depend on the pixels (gradient `None`), a NaN gradient, and an exception from the model are not modelled.
- The assignment `batch["pixel_values"] = perturbed_images` (src/pgd.py:144) only feeds the model. The oracle receives the current iterate directly, and nothing reads that field after the loop.
- Hydra configuration, seeding, checkpoint loading, datamodule and model instantiation, device selection and device moves (src/pgd.py:72-104, 130-134). This is environment plumbing.
- Directory creation, path building with `str(eps)`, tqdm, and `torchvision.utils.save_image` (src/pgd.py:107-109, 119-128, 158-160). This is filesystem I/O. The sweep ends at the hand-over of each batch's denormalized image, delta and names. The per-sample split by `zip` is not modelled, including its truncation to the shorter of the batch and the name list.
- The unused constant `epsilon = 8/255` (src/pgd.py:113) and the pyrootutils setup (src/pgd.py:5-10).
- `denormalize`'s conversion of `mean` and `std` with `torch.as_tensor` to the image's dtype and device. Only flat lists of numbers are modelled. Ragged lists, whose conversion raises at src/pgd.py:169-170, and rectangular nested lists, which convert to a higher-rank tensor and broadcast differently, are not.
- Sweep.AttackBatch: requires at least one iteration. With zero iterations no iteration binds `delta`, so on the first batch the `zip` at src/pgd.py:158 raises `UnboundLocalError` and ends the run. The source hardcodes 40. `Pgd.Run` still covers zero iterations and reports that no delta was bound.
- Sweep.BudgetPass, Sweep.SweepFrom and Sweep.RunSweep: the only error modelled is the shape error raised by `denormalize`. Model exceptions and I/O failures, which also end the sweep, are not modelled.
- Sweep.SweepOrder and Sweep.LossGradient: the model's gradient is taken to be a function of the batch, the iteration number and the current pixels only. The source never puts the model in evaluation mode (src/pgd.py:82, 104), so dropout or other random state carried from one `model.step` call to the next is not modelled.
- Sweep.SweepOrder and Sweep.BudgetPass: every budget is run over the same batches in the same order. The source iterates `test_loader` afresh for each budget (src/pgd.py:129), and a shuffling loader would yield other batches or another order.
