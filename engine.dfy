/**
 * The convergence engine of `IterativeMean` (Itmean.h) on values: the strategy an
 * object was built as, the fields the engine updates, one `iterate()` step, and the
 * two `calculate` loops.
 */
module Engine {
  import opened Folds
  import AgmMean
  import ClocksAtSeaMean

  /**
   * Which concrete subclass of `IterativeMean` an object is. The virtual `step_average`
   * and `reset` dispatch on it. `pow` is the C math library's, left uninterpreted.
   */
  datatype Strategy = AGM(pow: AgmMean.Pow) | ClocksAtSea

  /** The engine's mutable fields; `buffer` is AGM's `a` or ClocksAtSea's `set_times`. */
  datatype State = State(iteration: nat, mean: real, buffer: seq<real>)

  /** `calculate()` ends with the last difference, or runs out of its step bound. */
  datatype Outcome = Converged(state: State, diff: real) | Exhausted(state: State)

  /**
   * The working vector has its strategy's shape: AGM's `a` is built with two slots;
   * ClocksAtSea's `set_times` is empty until the first `reset` gives it one slot per datum.
   */
  predicate WellShaped(strategy: Strategy, raw: seq<real>, buffer: seq<real>)
  {
    match strategy
    case AGM(_) => |buffer| == 2
    case ClocksAtSea => |buffer| == 0 || |buffer| == |raw|
  }

  /**
   * What `step_average` needs to be defined: ClocksAtSea dereferences `max_element` of
   * `set_times`, which must therefore be non-empty and as long as `raw`.
   */
  predicate CanStep(strategy: Strategy, raw: seq<real>, buffer: seq<real>)
  {
    match strategy
    case AGM(_) => |buffer| == 2
    case ClocksAtSea => |buffer| == |raw| > 0
  }

  /** The virtual `reset()`: the working vector recomputed from the data. */
  function ResetBuffer(strategy: Strategy, raw: seq<real>): (b: seq<real>)
    requires strategy.AGM? ==> |raw| > 0
    ensures WellShaped(strategy, raw, b)
    ensures |raw| > 0 ==> CanStep(strategy, raw, b)
  {
    match strategy
    case AGM(pow) => AgmMean.Reset(raw, pow)
    case ClocksAtSea => ClocksAtSeaMean.Reset(raw)
  }

  /** The virtual `step_average()`: the next working vector and the next estimate. */
  function StepAverage(strategy: Strategy, raw: seq<real>, buffer: seq<real>, iteration: nat): (r: (seq<real>, real))
    requires CanStep(strategy, raw, buffer) && iteration >= 1
    ensures CanStep(strategy, raw, r.0)
  {
    match strategy
    case AGM(pow) => AgmMean.Step(buffer, pow)
    case ClocksAtSea => ClocksAtSeaMean.Step(buffer, raw, iteration)
  }

  /**
   * `iterate()`: the counter goes up first (so `step_average` sees it incremented), the
   * step's estimate becomes the mean, and the absolute change is returned.
   */
  function Iterate(strategy: Strategy, raw: seq<real>, s: State): (r: (State, real))
    requires CanStep(strategy, raw, s.buffer)
    ensures CanStep(strategy, raw, r.0.buffer)
  {
    var iteration := s.iteration + 1;
    var step := StepAverage(strategy, raw, s.buffer, iteration);
    (State(iteration, step.1, step.0), Abs(s.mean - step.1))
  }

  /** The reset at the start of either `calculate`: only the working vector changes. */
  function AfterReset(strategy: Strategy, raw: seq<real>, s: State): (r: State)
    requires |raw| > 0
    ensures CanStep(strategy, raw, r.buffer)
  {
    s.(buffer := ResetBuffer(strategy, raw))
  }

  /** The loop of `calculate(iteration_depth)`: `while (iteration < iteration_depth) iterate();`. */
  function RunDepth(strategy: Strategy, raw: seq<real>, s: State, depth: nat): (r: State)
    requires CanStep(strategy, raw, s.buffer)
    ensures CanStep(strategy, raw, r.buffer)
    decreases depth - s.iteration
  {
    if s.iteration < depth then RunDepth(strategy, raw, Iterate(strategy, raw, s).0, depth) else s
  }

  /** `calculate(iteration_depth)` as a whole. */
  function CalculateDepth(strategy: Strategy, raw: seq<real>, s: State, depth: nat): (r: State)
    requires |raw| > 0
    ensures r.iteration == if s.iteration < depth then depth else s.iteration
    ensures depth <= s.iteration ==> r == AfterReset(strategy, raw, s)
  {
    RunDepthCounter(strategy, raw, AfterReset(strategy, raw, s), depth);
    RunDepth(strategy, raw, AfterReset(strategy, raw, s), depth)
  }

  /**
   * The loop of `calculate()`: `while (x > precision) x = iterate();`, with at most
   * `fuel` steps (the source loop has no bound).
   */
  function Converge(strategy: Strategy, raw: seq<real>, s: State, precision: real, x: real, fuel: nat): (r: Outcome)
    requires CanStep(strategy, raw, s.buffer)
    ensures CanStep(strategy, raw, r.state.buffer)
    decreases fuel
  {
    if !(x > precision) then Converged(s, x)
    else if fuel == 0 then Exhausted(s)
    else
      var step := Iterate(strategy, raw, s);
      Converge(strategy, raw, step.0, precision, step.1, fuel - 1)
  }

  /** One turn of the precision loop, as a rewriting rule. */
  lemma ConvergeStep(strategy: Strategy, raw: seq<real>, s: State, precision: real, x: real, fuel: nat)
    requires CanStep(strategy, raw, s.buffer)
    requires x > precision && fuel > 0
    ensures var step := Iterate(strategy, raw, s);
            Converge(strategy, raw, s, precision, x, fuel) == Converge(strategy, raw, step.0, precision, step.1, fuel - 1)
  {
  }

  /** The precision loop at its exit: converged, or out of steps. */
  lemma ConvergeStop(strategy: Strategy, raw: seq<real>, s: State, precision: real, x: real, fuel: nat)
    requires CanStep(strategy, raw, s.buffer)
    requires !(x > precision) || fuel == 0
    ensures Converge(strategy, raw, s, precision, x, fuel)
         == if x > precision then Exhausted(s) else Converged(s, x)
  {
  }

  /** `calculate()` as a whole: reset, then the loop entered with `x = 2 * precision`. */
  function Calculate(strategy: Strategy, raw: seq<real>, s: State, precision: real, fuel: nat): (r: Outcome)
    requires |raw| > 0
    ensures s.iteration <= r.state.iteration <= s.iteration + fuel
    ensures r.Converged? ==> r.diff <= precision
    ensures r.Exhausted? ==> r.state.iteration == s.iteration + fuel
  {
    ConvergeSteps(strategy, raw, AfterReset(strategy, raw, s), precision, 2.0 * precision, fuel);
    Converge(strategy, raw, AfterReset(strategy, raw, s), precision, 2.0 * precision, fuel)
  }

  /**
   * The depth loop ends with the counter at the larger of its old value and the depth;
   * when the counter is already there, nothing at all changes.
   */
  lemma {:induction false} RunDepthCounter(strategy: Strategy, raw: seq<real>, s: State, depth: nat)
    requires CanStep(strategy, raw, s.buffer)
    ensures RunDepth(strategy, raw, s, depth).iteration == if s.iteration < depth then depth else s.iteration
    ensures depth <= s.iteration ==> RunDepth(strategy, raw, s, depth) == s
    decreases depth - s.iteration
  {
    if s.iteration < depth {
      RunDepthCounter(strategy, raw, Iterate(strategy, raw, s).0, depth);
    }
  }

  /**
   * `reset()` never clears the counter, so a second `calculate(depth)` with the same depth
   * runs no step: it keeps the counter and returns the mean the first call left.
   */
  lemma CalculateDepthTwice(strategy: Strategy, raw: seq<real>, s: State, depth: nat)
    requires |raw| > 0
    ensures var first := CalculateDepth(strategy, raw, s, depth);
            var second := CalculateDepth(strategy, raw, first, depth);
            && first.iteration == (if s.iteration < depth then depth else s.iteration)
            && second.iteration == first.iteration
            && second.mean == first.mean
            && second.buffer == ResetBuffer(strategy, raw)
  {
    var first := CalculateDepth(strategy, raw, s, depth);
    RunDepthCounter(strategy, raw, AfterReset(strategy, raw, s), depth);
    RunDepthCounter(strategy, raw, AfterReset(strategy, raw, first), depth);
  }

  /**
   * The precision loop: it never takes more steps than its bound, takes at least one when
   * entered with `x > precision`, and ends converged only with a difference within
   * `precision`; entered with `x <= precision` it changes nothing.
   */
  lemma {:induction false} ConvergeSteps(strategy: Strategy, raw: seq<real>, s: State, precision: real, x: real, fuel: nat)
    requires CanStep(strategy, raw, s.buffer)
    ensures var r := Converge(strategy, raw, s, precision, x, fuel);
            && s.iteration <= r.state.iteration <= s.iteration + fuel
            && (r.Converged? ==> r.diff <= precision)
            && (r.Exhausted? ==> r.state.iteration == s.iteration + fuel)
            && (x > precision && fuel > 0 ==> r.state.iteration > s.iteration)
            && (!(x > precision) ==> r == Converged(s, x))
    decreases fuel
  {
    if x > precision && fuel > 0 {
      var step := Iterate(strategy, raw, s);
      ConvergeSteps(strategy, raw, step.0, precision, step.1, fuel - 1);
    }
  }

  /**
   * The entry guard `2 * precision > precision` of `calculate()`: with a positive
   * precision at least one step runs and convergence means a last difference within it;
   * with a precision that is zero or negative no step runs and the mean is what it was.
   */
  lemma CalculateGuard(strategy: Strategy, raw: seq<real>, s: State, precision: real, fuel: nat)
    requires |raw| > 0
    ensures var r := Calculate(strategy, raw, s, precision, fuel);
            && (precision <= 0.0 ==> r == Converged(AfterReset(strategy, raw, s), 2.0 * precision))
            && (precision > 0.0 && fuel > 0 ==> r.state.iteration >= s.iteration + 1)
            && (precision > 0.0 && r.Converged? ==> r.diff <= precision)
  {
    ConvergeSteps(strategy, raw, AfterReset(strategy, raw, s), precision, 2.0 * precision, fuel);
  }

  /**
   * With all data equal to `v`, the first ClocksAtSea step after a reset gives every
   * accumulator `v` and returns `v / (iteration + 1)`: the estimate is `v` only when the
   * counter was zero, because `reset()` does not clear it.
   */
  lemma ClocksFirstStepAfterReset(raw: seq<real>, v: real, s: State)
    requires |raw| > 0
    requires forall j :: 0 <= j < |raw| ==> raw[j] == v
    ensures var r := Iterate(ClocksAtSea, raw, AfterReset(ClocksAtSea, raw, s)).0;
            && r.iteration == s.iteration + 1
            && r.buffer == raw
            && r.mean == v / ((s.iteration + 1) as real)
  {
    var t := ClocksAtSeaMean.Accumulate(ClocksAtSeaMean.Reset(raw), raw);
    assert t == raw;
    ClocksAtSeaMean.CorrectDegenerate(t);
  }

  /** One ClocksAtSea step on uniform accumulators `c` and uniform data `v`. */
  lemma ClocksUniformIterate(raw: seq<real>, v: real, c: real, s: State, count: real)
    requires |s.buffer| == |raw| > 0 && count == (s.iteration + 1) as real
    requires forall j :: 0 <= j < |raw| ==> raw[j] == v
    requires forall j :: 0 <= j < |s.buffer| ==> s.buffer[j] == c
    ensures var r := Iterate(ClocksAtSea, raw, s);
            && r.0.iteration == s.iteration + 1
            && |r.0.buffer| == |raw|
            && (forall j :: 0 <= j < |r.0.buffer| ==> r.0.buffer[j] == c + v)
            && r.0.mean == (c + v) / count
            && r.1 == Abs(s.mean - r.0.mean)
  {
    ClocksAtSeaMean.StepUniform(s.buffer, raw, c, v, s.iteration + 1);
  }

  /**
   * ClocksAtSea on a fresh counter with all data equal to `v` converges after one or two
   * steps (whatever the unset mean was) with the mean `v`.
   */
  lemma ClocksUniformConverges(raw: seq<real>, v: real, s: State, precision: real, fuel: nat)
    requires |raw| > 0 && s.iteration == 0
    requires forall j :: 0 <= j < |raw| ==> raw[j] == v
    requires precision > 0.0 && fuel >= 2
    ensures var r := Calculate(ClocksAtSea, raw, s, precision, fuel);
            r.Converged? && r.state.mean == v && 1 <= r.state.iteration <= 2
  {
    ClocksUniformFromReset(raw, v, AfterReset(ClocksAtSea, raw, s), precision, fuel);
  }

  /** The loop of `calculate()` from freshly zeroed accumulators on a fresh counter. */
  lemma ClocksUniformFromReset(raw: seq<real>, v: real, s: State, precision: real, fuel: nat)
    requires |raw| > 0 && s.iteration == 0 && s.buffer == ClocksAtSeaMean.Reset(raw)
    requires forall j :: 0 <= j < |raw| ==> raw[j] == v
    requires precision > 0.0 && fuel >= 2
    ensures var r := Converge(ClocksAtSea, raw, s, precision, 2.0 * precision, fuel);
            r.Converged? && r.state.mean == v && 1 <= r.state.iteration <= 2
  {
    ClocksUniformFirst(raw, v, s);
    ConvergeStep(ClocksAtSea, raw, s, precision, 2.0 * precision, fuel);
    var step1 := Iterate(ClocksAtSea, raw, s);
    ClocksUniformTail(raw, v, step1.0, precision, step1.1, fuel - 1);
  }

  /** After the first uniform ClocksAtSea step the loop stops at once or after one more step. */
  lemma ClocksUniformTail(raw: seq<real>, v: real, s: State, precision: real, x: real, fuel: nat)
    requires |s.buffer| == |raw| > 0 && s.iteration == 1 && s.mean == v
    requires forall j :: 0 <= j < |raw| ==> raw[j] == v
    requires forall j :: 0 <= j < |s.buffer| ==> s.buffer[j] == v
    requires precision > 0.0 && fuel >= 1
    ensures var r := Converge(ClocksAtSea, raw, s, precision, x, fuel);
            r.Converged? && r.state.mean == v && 1 <= r.state.iteration <= 2
  {
    if x > precision {
      ClocksUniformSecond(raw, v, s);
      ConvergeStep(ClocksAtSea, raw, s, precision, x, fuel);
      var step := Iterate(ClocksAtSea, raw, s);
      ConvergeStop(ClocksAtSea, raw, step.0, precision, step.1, fuel - 1);
    } else {
      ConvergeStop(ClocksAtSea, raw, s, precision, x, fuel);
    }
  }

  /** The first ClocksAtSea step from zeroed accumulators on a fresh counter returns `v`. */
  lemma ClocksUniformFirst(raw: seq<real>, v: real, s: State)
    requires |s.buffer| == |raw| > 0 && s.iteration == 0
    requires forall j :: 0 <= j < |raw| ==> raw[j] == v
    requires forall j :: 0 <= j < |s.buffer| ==> s.buffer[j] == 0.0
    ensures var r := Iterate(ClocksAtSea, raw, s).0;
            && r.iteration == 1 && r.mean == v && |r.buffer| == |raw|
            && forall j :: 0 <= j < |r.buffer| ==> r.buffer[j] == v
  {
    ClocksUniformIterate(raw, v, 0.0, s, 1.0);
  }

  /** The second uniform ClocksAtSea step returns `v` again: the loop sees a zero difference. */
  lemma ClocksUniformSecond(raw: seq<real>, v: real, s: State)
    requires |s.buffer| == |raw| > 0 && s.iteration == 1 && s.mean == v
    requires forall j :: 0 <= j < |raw| ==> raw[j] == v
    requires forall j :: 0 <= j < |s.buffer| ==> s.buffer[j] == v
    ensures Iterate(ClocksAtSea, raw, s).0.iteration == 2
    ensures Iterate(ClocksAtSea, raw, s).0.mean == v
    ensures Iterate(ClocksAtSea, raw, s).1 == 0.0
  {
    ClocksUniformIterate(raw, v, v, s, 2.0);
  }

  /**
   * AGM with all data equal to `v` (and a `pow` exact on such data) converges after one
   * or two steps with the mean `v`.
   */
  lemma AgmUniformConverges(raw: seq<real>, v: real, pow: AgmMean.Pow, s: State, precision: real, fuel: nat)
    requires |raw| > 0
    requires forall j :: 0 <= j < |raw| ==> raw[j] == v
    requires pow(Product(raw), 1.0 / (|raw| as real)) == v
    requires pow(v * v, 0.5) == v
    requires precision > 0.0 && fuel >= 2
    ensures var r := Calculate(AGM(pow), raw, s, precision, fuel);
            && r.Converged? && r.state.mean == v
            && s.iteration + 1 <= r.state.iteration <= s.iteration + 2
  {
    var st := AGM(pow);
    var s0 := AfterReset(st, raw, s);
    AgmMean.UniformFixedPoint(raw, v, pow);
    ConvergeStep(st, raw, s0, precision, 2.0 * precision, fuel);
    var step1 := Iterate(st, raw, s0);
    if step1.1 > precision {
      ConvergeStep(st, raw, step1.0, precision, step1.1, fuel - 1);
      var step2 := Iterate(st, raw, step1.0);
      ConvergeStop(st, raw, step2.0, precision, step2.1, fuel - 2);
    } else {
      ConvergeStop(st, raw, step1.0, precision, step1.1, fuel - 1);
    }
  }
}
