/**
 * The `IterativeMean` object of Itmean.h with its two concrete strategies (`AGM` and
 * `ClocksAtSea`) as one class: the strategy is fixed at construction and the virtual
 * `step_average` and `reset` dispatch on it. Each method is tied to the value-level
 * definitions of module `Engine`, where the properties of the loops are proved.
 */
module Itmean {
  import opened Folds
  import opened Engine
  import AgmMean
  import ClocksAtSeaMean

  class IterativeMean {
    /** Which subclass this object is. */
    const strategy: Strategy
    /** `raw`: the data to be averaged, set once by the constructor. */
    const raw: seq<real>
    /** `iteration`: the number of steps taken; `reset` never clears it. */
    var iteration: nat
    /** `precision`: the change below which `calculate()` stops. */
    var precision: real
    /** `mean`: the working mean; left unset by the constructors. */
    var mean: real
    /** AGM's pair `a`, or ClocksAtSea's accumulators `set_times`. */
    var buffer: seq<real>

    ghost predicate Valid()
      reads this
    {
      WellShaped(strategy, raw, buffer)
    }

    /** The fields the engine updates, as a value. */
    function Snapshot(): State
      reads this
    {
      State(iteration, mean, buffer)
    }

    /** `AGM(vector<double> data)`: the pair starts as two zeros. */
    constructor AGM(data: seq<real>, pow: AgmMean.Pow)
      ensures Valid()
      ensures strategy == Strategy.AGM(pow) && raw == data
      ensures iteration == 0 && precision == 0.000001 && buffer == [0.0, 0.0]
    {
      strategy := Strategy.AGM(pow);
      raw := data;
      iteration := 0;
      precision := 0.000001;
      buffer := [0.0, 0.0];
    }

    /** `ClocksAtSea(vector<double> data)`: the accumulators stay empty until `reset`. */
    constructor ClocksAtSea(data: seq<real>)
      ensures Valid()
      ensures strategy == Strategy.ClocksAtSea && raw == data
      ensures iteration == 0 && precision == 0.000001 && buffer == []
    {
      strategy := Strategy.ClocksAtSea;
      raw := data;
      iteration := 0;
      precision := 0.000001;
      buffer := [];
    }

    /** `set_precision`. */
    method SetPrecision(precis: real)
      modifies this`precision
      ensures precision == precis
    {
      precision := precis;
    }

    /** `size()`. */
    method Size() returns (n: nat)
      ensures n == |raw|
    {
      n := |raw|;
    }

    /** `operator[]`: unchecked in the source, so the index must be in range. */
    method At(i: nat) returns (x: real)
      requires i < |raw|
      ensures x == raw[i]
    {
      x := raw[i];
    }

    /** `iterations()`. */
    method Iterations() returns (n: nat)
      ensures n == iteration
    {
      n := iteration;
    }

    /** The virtual `reset()`. */
    method Reset()
      requires Valid()
      requires strategy.AGM? ==> |raw| > 0
      modifies this`buffer
      ensures Valid()
      ensures buffer == ResetBuffer(strategy, raw)
    {
      match strategy
      case AGM(pow) =>
        buffer := buffer[0 := AgmMean.GeometricMean(raw, pow)];
        buffer := buffer[1 := Mean(raw)];
      case ClocksAtSea =>
        buffer := seq(|raw|, _ => 0.0);
    }

    /** The virtual `step_average()`. */
    method StepAverage() returns (next: real)
      requires CanStep(strategy, raw, buffer) && iteration >= 1
      modifies this`buffer
      ensures CanStep(strategy, raw, buffer)
      ensures (buffer, next) == Engine.StepAverage(strategy, raw, old(buffer), iteration)
    {
      match strategy
      case AGM(pow) =>
        var a1Next := Mean(buffer);
        buffer := buffer[0 := AgmMean.GeometricMean(buffer, pow)];
        buffer := buffer[1 := a1Next];
        next := a1Next;
      case ClocksAtSea =>
        next := StepClocks();
    }

    /** `ClocksAtSea::step_average`, in place on the accumulators. */
    method StepClocks() returns (next: real)
      requires strategy.ClocksAtSea?
      requires |buffer| == |raw| > 0 && iteration >= 1
      modifies this`buffer
      ensures (buffer, next) == ClocksAtSeaMean.Step(old(buffer), raw, iteration)
    {
      AccumulateRaw();
      var sumAll := Sum(buffer);
      var naivmean := sumAll / (|buffer| as real);
      var newMean := CorrectOutlier(naivmean);
      next := newMean / (iteration as real);
    }

    /** The first loop of `ClocksAtSea::step_average`: each accumulator gains its datum. */
    method AccumulateRaw()
      requires |buffer| == |raw|
      modifies this`buffer
      ensures buffer == ClocksAtSeaMean.Accumulate(old(buffer), raw)
    {
      for i := 0 to |buffer|
        invariant |buffer| == |raw|
        invariant forall j :: 0 <= j < i ==> buffer[j] == old(buffer)[j] + raw[j]
        invariant forall j :: i <= j < |buffer| ==> buffer[j] == old(buffer)[j]
      {
        buffer := buffer[i := buffer[i] + raw[i]];
      }
    }

    /**
     * The outlier correction of `ClocksAtSea::step_average`: the extreme furthest from
     * `naivmean` is overwritten by `new_mean`, or both extremes on a tie, each
     * `max_element` and `min_element` taken on the accumulators as they are at that point.
     */
    method CorrectOutlier(naivmean: real) returns (newMean: real)
      requires |buffer| > 0
      modifies this`buffer
      ensures (buffer, newMean) == ClocksAtSeaMean.CorrectAround(old(buffer), naivmean)
    {
      ghost var t := buffer;
      var n := |buffer| as real;
      var iMax, iMin := MaxElement(buffer), MinElement(buffer);
      if Abs(buffer[iMax] - naivmean) > Abs(buffer[iMin] - naivmean) {
        ClocksAtSeaMean.ExtremesDiffer(t, naivmean);
        newMean := ClocksAtSeaMean.OthersMean(naivmean, n, buffer[iMax]);
        buffer := buffer[iMax := newMean];
      } else if Abs(buffer[iMax] - naivmean) < Abs(buffer[iMin] - naivmean) {
        ClocksAtSeaMean.ExtremesDiffer(t, naivmean);
        newMean := ClocksAtSeaMean.OthersMean(naivmean, n, buffer[iMin]);
        buffer := buffer[iMin := newMean];
      } else {
        newMean := naivmean;
        buffer := buffer[iMax := newMean];
        buffer := buffer[MinElement(buffer) := newMean];
      }
    }

    /** `iterate()`: one step; returns how far the mean moved. */
    method Iterate() returns (diff: real)
      requires CanStep(strategy, raw, buffer)
      modifies this`iteration, this`mean, this`buffer
      ensures CanStep(strategy, raw, buffer)
      ensures (Snapshot(), diff) == Engine.Iterate(strategy, raw, old(Snapshot()))
    {
      iteration := iteration + 1;
      var nextMean := StepAverage();
      diff := Abs(mean - nextMean);
      mean := nextMean;
    }

    /**
     * `calculate()`: reset, then iterate until the mean moves by at most `precision`.
     * The source loop is unbounded; here it stops after `fuel` steps and reports whether
     * it converged.
     */
    method Calculate(fuel: nat) returns (converged: bool, result: real)
      requires Valid() && |raw| > 0
      modifies this`iteration, this`mean, this`buffer
      ensures Valid()
      ensures var r := Engine.Calculate(strategy, raw, old(Snapshot()), precision, fuel);
              Snapshot() == r.state && converged == r.Converged?
      ensures result == mean
      ensures old(iteration) <= iteration <= old(iteration) + fuel
      ensures precision > 0.0 && fuel > 0 ==> iteration > old(iteration)
      ensures precision <= 0.0 ==> iteration == old(iteration) && mean == old(mean)
    {
      Reset();
      ghost var reset := Snapshot();
      converged := ConvergeLoop(2.0 * precision, fuel);
      ConvergeSteps(strategy, raw, reset, precision, 2.0 * precision, fuel);
      result := mean;
    }

    /** The loop of `calculate()`, entered with `x` and at most `fuel` steps to go. */
    method ConvergeLoop(x0: real, fuel: nat) returns (converged: bool)
      requires CanStep(strategy, raw, buffer)
      modifies this`iteration, this`mean, this`buffer
      ensures CanStep(strategy, raw, buffer)
      ensures var r := Converge(strategy, raw, old(Snapshot()), precision, x0, fuel);
              Snapshot() == r.state && converged == r.Converged?
    {
      ghost var target := Converge(strategy, raw, Snapshot(), precision, x0, fuel);
      var x := x0;
      var remaining := fuel;
      while x > precision && remaining > 0
        invariant CanStep(strategy, raw, buffer)
        invariant Converge(strategy, raw, Snapshot(), precision, x, remaining) == target
        decreases remaining
      {
        ConvergeStep(strategy, raw, Snapshot(), precision, x, remaining);
        x := Iterate();
        remaining := remaining - 1;
      }
      ConvergeStop(strategy, raw, Snapshot(), precision, x, remaining);
      converged := !(x > precision);
    }

    /** `calculate(iteration_depth)`: reset, then iterate while the counter is below the depth. */
    method CalculateDepth(depth: nat) returns (result: real)
      requires Valid() && |raw| > 0
      modifies this`iteration, this`mean, this`buffer
      ensures Valid()
      ensures Snapshot() == Engine.CalculateDepth(strategy, raw, old(Snapshot()), depth)
      ensures result == mean
      ensures iteration == if old(iteration) < depth then depth else old(iteration)
    {
      Reset();
      ghost var target := RunDepth(strategy, raw, Snapshot(), depth);
      RunDepthCounter(strategy, raw, Snapshot(), depth);
      while iteration < depth
        invariant CanStep(strategy, raw, buffer)
        invariant RunDepth(strategy, raw, Snapshot(), depth) == target
        decreases depth - iteration
      {
        var _ := Iterate();
      }
      result := mean;
    }
  }
}
