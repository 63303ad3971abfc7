# IterativeMean in Dafny

This project models `Itmean.h` from the IterativeMean repository. The header has one
iteration engine, the abstract base `IterativeMean`, and two strategies that plug into it:

- `AGM`, the arithmetic-geometric mean, which works on a two-slot pair `a`;
- `ClocksAtSea`, which keeps one accumulator per datum in `set_times`. Each step it adds
  the data to the accumulators and overwrites the accumulator that strays furthest from
  the naive mean, or both extremes on a tie.

The engine does three things:

- `iterate()` bumps the counter, asks the strategy for the next estimate and returns how
  far the mean moved;
- `calculate()` resets, then iterates until that change is at most `precision`;
- `calculate(depth)` resets, then iterates while the counter is below `depth`.

Layout:

- `folds.dfy` (module `Folds`): the standard algorithms the header uses, over `real`.
  These are `accumulate` with `+` and `*`, `max_element`, `min_element` (first
  occurrence), and `abs`.
- `folds.dfy` also holds the sum-over-count mean that both `AGM::arithmetic_mean` and
  ClocksAtSea's `naivmean` compute.
- `agm.dfy` (module `AgmMean`): `geometric_mean`, and AGM's `reset` and `step_average`
  as functions on the pair.
- `clocks.dfy` (module `ClocksAtSeaMean`): ClocksAtSea's `reset` and `step_average` as
  functions on the accumulators, with lemmas for each branch of the correction.
- `engine.dfy` (module `Engine`): the engine on values. It defines the strategy tag, the
  state `(iteration, mean, buffer)`, `iterate`, and both `calculate` loops as recursive
  functions, with the lemmas about the loops.
- `itmean.dfy` (module `Itmean`): class `IterativeMean`, which holds the object's fields
  and updates them in place. The strategy is a constant tag fixed by the constructor
  (`AGM` or `ClocksAtSea`), and `buffer` is `a` or `set_times`. Each method ensures
  that its new state is the matching `Engine` or strategy function applied to the old
  state. ClocksAtSea's step keeps the source's loop and its writes in place.

The model follows the code, including these behaviours a caller may not expect:

- `calculate(depth)` runs `max(0, depth - iterations())` steps. The loop compares the
  counter with `depth`, and reset does not clear the counter.
- `reset()` never clears `iteration`. So `iterations()` counts every step since
  construction. A second `calculate(depth)` with the same depth runs no step
  (`Engine.CalculateDepthTwice`).
- ClocksAtSea divides by that running counter. On a reused object, its first estimate
  after a reset is scaled down (`Engine.ClocksFirstStepAfterReset`).
- `calculate()` always takes at least one step when `precision > 0`, because it enters
  its loop with `x = 2 * precision`. Data of equal values converges after one or two
  steps on an AGM object (`Engine.AgmUniformConverges`) and on a fresh ClocksAtSea
  object (`Engine.ClocksUniformConverges`). A reused ClocksAtSea object gets the scaled
  estimate above and need not converge as quickly.

## Model

| member | source | states |
|---|---|---|
| Folds.MaxElement | Itmean.h:101-103 | `max_element` gives an index holding a largest value, and no earlier index holds that value (first occurrence) |
| Folds.MinElement | Itmean.h:105-107 | `min_element` gives an index holding a smallest value, and it is the first such index |
| Folds.SumBounds | Itmean.h:66 | when every element lies between `lo` and `hi`, the `accumulate` sum lies between `n * lo` and `n * hi` |
| Folds.SumPointwise | Itmean.h:90-93 | the sum of element-wise sums is the sum of the two sums |
| Folds.ProductZero | Itmean.h:72 | a zero datum makes the `multiplies` product zero (the zero case noted at line 57) |
| Folds.Mean | Itmean.h:65-69 | `sum / size`, used by `arithmetic_mean` and by `naivmean` (lines 93-94): the mean times the count is the sum |
| Folds.MeanBounds | Itmean.h:65-69 | the mean lies between the smallest and the largest datum |
| Folds.MeanConstant | Itmean.h:65-69 | the mean of data all equal to `v` is `v` |
| AgmMean.Reset | Itmean.h:58 | AGM's reset gives a pair whose slot 1, times the count, is the sum of the data, and lies within the data's range |
| AgmMean.Step | Itmean.h:55-56 | an AGM step keeps the pair; the returned value is stored in slot 1, twice it is the old pair's sum, and it lies between the two old values |
| AgmMean.ResetPair | Itmean.h:58 | AGM's reset makes `a` a pair: slot 0 is `pow(product, 1/n)`, slot 1 is `sum / n`, and slot 1 lies within the data's range |
| AgmMean.StepPair | Itmean.h:55-56 | an AGM step returns `(a[0] + a[1]) / 2` and stores it in slot 1; slot 0 gets `pow(a[0] * a[1], 1/2)` of the OLD pair; the pair stays of size 2; the estimate lies between the two old values |
| AgmMean.UniformFixedPoint | Itmean.h:55-58 | data all equal to `v`, with `pow` exact on them, seeds the pair `[v, v]`, and a step keeps that pair and returns `v` |
| ClocksAtSeaMean.ResetZeroed | Itmean.h:83 | ClocksAtSea's reset gives one accumulator per datum, each zero, so the total accumulated is zero |
| ClocksAtSeaMean.AccumulateSum | Itmean.h:90-92 | the accumulation loop keeps one accumulator per datum and adds the data's total to the accumulators' total |
| ClocksAtSeaMean.OthersMean | Itmean.h:102-106 | `new_mean` of the asymmetric branches, times `size - 1`, is `naivmean * size` less the extreme |
| ClocksAtSeaMean.ReplaceOutlier | Itmean.h:102-107 | an asymmetric branch keeps the number of accumulators, stores `new_mean` at the extreme's slot, and `new_mean * (size - 1)` is `naivmean * size` less that extreme |
| ClocksAtSeaMean.ResetExtremes | Itmean.h:110-112 | the tie branch keeps the number of accumulators, returns `naivmean`, and leaves `naivmean` in the first maximum's slot even when the second write lands there |
| ClocksAtSeaMean.Correct | Itmean.h:100-113 | the correction keeps the number of accumulators |
| ClocksAtSeaMean.CorrectAround | Itmean.h:101-113 | the three-way branch on the two deviations keeps the number of accumulators |
| ClocksAtSeaMean.Step | Itmean.h:88-115 | a ClocksAtSea step keeps `set_times` as long as `raw` |
| ClocksAtSeaMean.NaiveMeanBetween | Itmean.h:93-94 | `naivmean` lies between `*min_element` and `*max_element` |
| ClocksAtSeaMean.ExtremesDiffer | Itmean.h:101-108 | unequal deviations need at least two accumulators, so the asymmetric branches never divide by `size - 1 = 0` |
| ClocksAtSeaMean.ReplaceOutlierMeaning | Itmean.h:102-107 | `(naivmean * size - extreme) / (size - 1)` is the mean of the other `n - 1` accumulators; only the extreme's slot changes; the result is the naive mean of the new accumulators |
| ClocksAtSeaMean.ResetExtremesMeaning | Itmean.h:110-112 | in the tie branch, `min_element` re-evaluated after the max slot is written finds the original first minimum; both extremes become `naivmean`; the sum is kept |
| ClocksAtSeaMean.CorrectMaxBranch | Itmean.h:101-104 | when the max deviation is strictly larger, there are at least two accumulators; only the first maximum is overwritten, with the mean of the others, and that value is the new naive mean |
| ClocksAtSeaMean.CorrectMinBranch | Itmean.h:105-108 | the same for the first minimum when its deviation is strictly larger |
| ClocksAtSeaMean.CorrectTieBranch | Itmean.h:109-113 | on equal deviations, the first maximum and the first minimum become `naivmean`; the re-evaluated min index is the original; the sum and the mean are kept |
| ClocksAtSeaMean.CorrectKeepsMean | Itmean.h:100-113 | whatever the branch, `new_mean` is the arithmetic mean of the corrected accumulators |
| ClocksAtSeaMean.CorrectDegenerate | Itmean.h:109-113 | a single accumulator, or all-equal ones, falls in the tie branch and is left unchanged |
| ClocksAtSeaMean.StepMeaning | Itmean.h:88-114 | a step returns the mean of the new accumulators divided by `iteration`; every accumulator other than the two extremes is `old + raw` |
| ClocksAtSeaMean.StepUniform | Itmean.h:88-114 | uniform accumulators `c` with uniform data `v` all become `c + v`; the estimate is `(c + v) / iteration` |
| Engine.ResetBuffer | Itmean.h:58-83 | the virtual `reset`: gives AGM a pair, and gives ClocksAtSea one accumulator per datum |
| Engine.StepAverage | Itmean.h:55-115 | the virtual `step_average` keeps the buffer in the shape the strategy needs (AGM pair; ClocksAtSea one slot per datum) |
| Engine.Iterate | Itmean.h:23-24 | `iterate` keeps the buffer in its strategy's shape |
| Engine.AfterReset | Itmean.h:34 | the reset at the head of either `calculate` leaves a buffer the step can run on |
| Engine.RunDepth | Itmean.h:44-46 | the depth loop keeps the buffer in its strategy's shape |
| Engine.Converge | Itmean.h:35-38 | the precision loop keeps the buffer in its strategy's shape |
| Engine.CalculateDepth | Itmean.h:42-48 | `calculate(depth)` ends with the counter at `max(old iteration, depth)`; when the counter is already at or past `depth`, only the reset happens |
| Engine.Calculate | Itmean.h:33-40 | `calculate()` takes between 0 and `fuel` steps, ends converged only with a last difference `<= precision`, and runs out of steps only after exactly `fuel` |
| Engine.RunDepthCounter | Itmean.h:42-48 | `calculate(depth)` ends with `iteration == max(old iteration, depth)`, and when the counter is already at or past `depth` the state is unchanged |
| Engine.CalculateDepthTwice | Itmean.h:42-48 | a second `calculate(depth)` with the same depth runs no step: the counter and the mean stay as the first call left them |
| Engine.ConvergeSteps | Itmean.h:35-38 | the precision loop takes between 0 and `fuel` steps; it takes at least one when entered with `x > precision`; it ends converged only with a last difference `<= precision`; running out of steps means exactly `fuel` steps; when not entered, it changes nothing |
| Engine.CalculateGuard | Itmean.h:33-40 | `calculate()` with `precision <= 0` runs no step and returns the old mean; with `precision > 0` it runs at least one step, and convergence means a last difference within `precision` |
| Engine.ClocksFirstStepAfterReset | Itmean.h:83-114 | with data all equal to `v`, the first ClocksAtSea step after a reset returns `v / (iteration + 1)`, which differs from `v` on a used counter unless `v == 0` |
| Engine.ClocksUniformConverges | Itmean.h:33-40 | ClocksAtSea on a fresh object with all data `v` converges with mean `v` after 1 or 2 steps, whatever the unset initial mean |
| Engine.ClocksUniformFromReset | Itmean.h:35-38 | from zeroed accumulators on a fresh counter with all data `v`, the precision loop converges with mean `v` after 1 or 2 steps |
| Engine.AgmUniformConverges | Itmean.h:33-40 | AGM with all data `v` (and `pow` exact on them) converges with mean `v` after 1 or 2 steps |
| Itmean.IterativeMean.AGM | Itmean.h:60 | the AGM constructor stores the data; `a` is `[0, 0]`, `iteration` is 0, `precision` is 0.000001, and `mean` is unset |
| Itmean.IterativeMean.ClocksAtSea | Itmean.h:85 | the ClocksAtSea constructor stores the data; `set_times` is empty, `iteration` is 0, `precision` is 0.000001, and `mean` is unset |
| Itmean.IterativeMean.SetPrecision | Itmean.h:19-20 | `precision` becomes the argument, with no check |
| Itmean.IterativeMean.Size | Itmean.h:25-26 | returns the number of data |
| Itmean.IterativeMean.At | Itmean.h:27-28 | returns the datum at the index |
| Itmean.IterativeMean.Iterations | Itmean.h:29-30 | returns the counter |
| Itmean.IterativeMean.Reset | Itmean.h:58-83 | in place: AGM writes both slots of `a`; ClocksAtSea reassigns `set_times` to `size()` zeros |
| Itmean.IterativeMean.StepAverage | Itmean.h:55-56 | AGM's step in place: slot 0 is written from the old pair before slot 1; dispatch to ClocksAtSea's step otherwise |
| Itmean.IterativeMean.StepClocks | Itmean.h:88-115 | ClocksAtSea's step in place equals `ClocksAtSeaMean.Step` on the old accumulators |
| Itmean.IterativeMean.AccumulateRaw | Itmean.h:90-92 | the loop leaves accumulator `i` at its old value plus `raw[i]` (loop invariants) |
| Itmean.IterativeMean.CorrectOutlier | Itmean.h:100-113 | the in-place branch, with `max_element` and `min_element` evaluated where the source evaluates them, equals `ClocksAtSeaMean.CorrectAround` |
| Itmean.IterativeMean.Iterate | Itmean.h:23-24 | the counter goes up by one before the step; the step's estimate becomes `mean`; the returned difference is the absolute change of the mean |
| Itmean.IterativeMean.Calculate | Itmean.h:33-40 | reset, then the precision loop; the new state is `Engine.Calculate`; it takes at most `fuel` steps; it takes at least one step if `precision > 0`; with `precision <= 0` the counter and the mean are unchanged |
| Itmean.IterativeMean.ConvergeLoop | Itmean.h:35-38 | the `while (x > precision)` loop, bounded by `fuel`, ends in the state `Engine.Converge` gives |
| Itmean.IterativeMean.CalculateDepth | Itmean.h:42-48 | reset, then `while (iteration < depth) iterate();`; the counter ends at `max(old, depth)` |

## Left out

- Floating point: `double` is modelled as exact `real`. Rounding, NaN and infinities are
  not modelled, nor whether a rounded difference ever drops below `precision`.
- AgmMean.GeometricMean: `pow` from the C math library is a parameter with no
  properties. Facts that need `pow` to be a true root take it as a hypothesis
  (`AgmMean.UniformFixedPoint`, `Engine.AgmUniformConverges`).
- Itmean.IterativeMean.Calculate: the source loop is unbounded. The model takes a step
  bound `fuel` and reports whether it converged within it. Convergence itself (the AGM
  converging quadratically) is not proved.
- Itmean.IterativeMean.Calculate: requires non-empty data, as does
  Itmean.IterativeMean.CalculateDepth. With no data, AGM's reset divides by zero and
  ClocksAtSea's step dereferences `max_element` of an empty range.
- Itmean.IterativeMean.At: requires an index in range. `operator[]` is unchecked, and an
  out-of-range read is undefined behaviour.
- `iteration` is an `unsigned int`; the model uses `nat`, without the 32-bit wrap-around.
- `mean` is uninitialised until the first step. The model leaves it unconstrained.
- The `off_times` loop (Itmean.h:95-98) is left out. It fills a local array that nothing
  reads, so it has no effect on state or result.
- The base `IterativeMean::step_average` (Itmean.h:16) is not modelled: it returns no
  value. The protected base constructor is not modelled either. Only the two concrete
  strategies can be built.
- The demo driver and its console output are not part of this model.
- The median-seeded Geothdian mean and the signed, decomposed AGM are not part of this
  model. They do not appear in `Itmean.h`.
