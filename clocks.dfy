/**
 * The clocks-at-sea strategy (class `ClocksAtSea` of Itmean.h): one accumulator per
 * datum; each step adds the data to the accumulators, then replaces the accumulator
 * that strays furthest from the naive mean (or both extremes, on a tie).
 */
module ClocksAtSeaMean {
  import opened Folds

  /** `ClocksAtSea::reset`: `set_times.assign(raw.size(), 0)`. */
  function Reset(raw: seq<real>): seq<real>
  {
    seq(|raw|, _ => 0.0)
  }

  /** The first loop of `ClocksAtSea::step_average`: `set_times[i] += raw[i]` for every `i`. */
  function Accumulate(times: seq<real>, raw: seq<real>): seq<real>
    requires |times| == |raw|
  {
    seq(|times|, i requires 0 <= i < |times| => times[i] + raw[i])
  }

  /** The reset accumulators: one per datum, and nothing accumulated. */
  lemma ResetZeroed(raw: seq<real>)
    ensures |Reset(raw)| == |raw|
    ensures forall j :: 0 <= j < |raw| ==> Reset(raw)[j] == 0.0
    ensures Sum(Reset(raw)) == 0.0
  {
    SumBounds(Reset(raw), 0.0, 0.0);
  }

  /** The accumulation loop adds the data's total to the accumulators' total. */
  lemma AccumulateSum(times: seq<real>, raw: seq<real>)
    requires |times| == |raw|
    ensures |Accumulate(times, raw)| == |times|
    ensures Sum(Accumulate(times, raw)) == Sum(times) + Sum(raw)
  {
    SumPointwise(times, raw, Accumulate(times, raw));
  }

  /**
   * The outlier correction of `ClocksAtSea::step_average` on the accumulated buffer `t`:
   * the corrected buffer and `new_mean`. The naive mean is `accumulate / size`, that is,
   * the arithmetic mean of the accumulators.
   */
  function Correct(t: seq<real>): (r: (seq<real>, real))
    requires |t| > 0
    ensures |r.0| == |t|
  {
    CorrectAround(t, Mean(t))
  }

  /** The branch on the deviations of `*max_element` and `*min_element` from `naivmean`. */
  function CorrectAround(t: seq<real>, naivmean: real): (r: (seq<real>, real))
    requires |t| > 0
    ensures |r.0| == |t|
  {
    var iMax, iMin := MaxElement(t), MinElement(t);
    if Abs(t[iMax] - naivmean) > Abs(t[iMin] - naivmean) then ReplaceOutlier(t, naivmean, iMax)
    else if Abs(t[iMax] - naivmean) < Abs(t[iMin] - naivmean) then ReplaceOutlier(t, naivmean, iMin)
    else ResetExtremes(t, naivmean)
  }

  /**
   * The asymmetric branches: `new_mean = (naivmean * size - extreme) / (size - 1)` is
   * written over the extreme at `k`.
   */
  function ReplaceOutlier(t: seq<real>, naivmean: real, k: nat): (r: (seq<real>, real))
    requires k < |t| && |t| > 1
    ensures |r.0| == |t| && r.0[k] == r.1
    ensures r.1 * ((|t| as real) - 1.0) == naivmean * (|t| as real) - t[k]
  {
    var newMean := OthersMean(naivmean, |t| as real, t[k]);
    (t[k := newMean], newMean)
  }

  /** `(naivmean * size - extreme) / (size - 1)`: the expression both asymmetric branches compute. */
  function OthersMean(naivmean: real, size: real, extreme: real): (r: real)
    requires size != 1.0
    ensures r * (size - 1.0) == naivmean * size - extreme
  {
    (naivmean * size - extreme) / (size - 1.0)
  }

  /**
   * The tie branch: `new_mean = naivmean` is written over `*max_element`, then over
   * `*min_element` of the buffer as it is after that first write.
   */
  function ResetExtremes(t: seq<real>, naivmean: real): (r: (seq<real>, real))
    requires |t| > 0
    ensures |r.0| == |t| && r.1 == naivmean
    ensures r.0[MaxElement(t)] == naivmean
  {
    var t1 := t[MaxElement(t) := naivmean];
    (t1[MinElement(t1) := naivmean], naivmean)
  }

  /**
   * `ClocksAtSea::step_average` as a whole: the new accumulators, and `new_mean` divided
   * by the iteration counter (which `iterate` has already incremented).
   */
  function Step(times: seq<real>, raw: seq<real>, iteration: nat): (r: (seq<real>, real))
    requires |times| == |raw| > 0
    requires iteration >= 1
    ensures |r.0| == |times|
  {
    var c := Correct(Accumulate(times, raw));
    (c.0, c.1 / (iteration as real))
  }

  // Arithmetic on plain reals, kept apart from sequences.

  lemma CancelCount(s: real, m: real, n: real, lo: real, hi: real)
    requires n > 0.0 && s == m * n
    requires n * lo <= s <= n * hi
    ensures lo <= m <= hi
  {
  }

  lemma DivideOut(s: real, v: real, n: real)
    requires n > 0.0 && s == v * n
    ensures s / n == v
  {
  }

  lemma OthersShare(s: real, x: real, m: real, n: real)
    requires n > 1.0 && s == m * n
    ensures (m * n - x) / (n - 1.0) == (s - x) / (n - 1.0)
    ensures s - x + (s - x) / (n - 1.0) == (s - x) / (n - 1.0) * n
  {
    var v := (s - x) / (n - 1.0);
    assert s - x == v * (n - 1.0);
  }

  lemma EqualDeviations(hi: real, m: real, lo: real)
    requires lo <= m <= hi
    requires Abs(hi - m) == Abs(lo - m)
    ensures hi - m == m - lo
  {
  }

  /** `m` is the naive mean of `t`, stated without a division. */
  predicate IsNaiveMean(t: seq<real>, m: real)
  {
    Sum(t) == m * (|t| as real)
  }

  lemma NaiveMeanOf(t: seq<real>)
    requires |t| > 0
    ensures IsNaiveMean(t, Mean(t))
  {
  }

  /** A buffer whose sum is `v` times its length has arithmetic mean `v`. */
  lemma MeanFromSum(t: seq<real>, v: real)
    requires |t| > 0 && IsNaiveMean(t, v)
    ensures Mean(t) == v
  {
    DivideOut(Sum(t), v, |t| as real);
  }

  /** The naive mean lies between the smallest and the largest accumulator. */
  lemma NaiveMeanBetween(t: seq<real>, m: real)
    requires |t| > 0 && IsNaiveMean(t, m)
    ensures t[MinElement(t)] <= m <= t[MaxElement(t)]
  {
    var lo, hi := t[MinElement(t)], t[MaxElement(t)];
    SumBounds(t, lo, hi);
    CancelCount(Sum(t), m, |t| as real, lo, hi);
  }

  /** One element sets both the maximum and the minimum. */
  lemma SingleExtreme(t: seq<real>)
    requires |t| > 0
    requires t[MaxElement(t)] == t[MinElement(t)]
    ensures MaxElement(t) == 0 && MinElement(t) == 0
    ensures forall j :: 0 <= j < |t| ==> t[j] == t[0]
  {
    var iMax, iMin := MaxElement(t), MinElement(t);
    assert t[iMin] <= t[0] <= t[iMax];
  }

  /** Unequal deviations need two distinct extremes, hence at least two accumulators. */
  lemma ExtremesDiffer(t: seq<real>, m: real)
    requires |t| > 0
    requires Abs(t[MaxElement(t)] - m) != Abs(t[MinElement(t)] - m)
    ensures |t| > 1
  {
  }

  /**
   * An asymmetric correction: the replacement is the mean of the OTHER n - 1
   * accumulators, and the corrected buffer has the replacement as its naive mean.
   */
  lemma ReplaceOutlierMeaning(t: seq<real>, m: real, k: nat)
    requires k < |t| && |t| > 1 && IsNaiveMean(t, m)
    ensures ReplaceOutlier(t, m, k).1 == Sum(Without(t, k)) / ((|t| - 1) as real)
    ensures ReplaceOutlier(t, m, k).0 == t[k := ReplaceOutlier(t, m, k).1]
    ensures IsNaiveMean(ReplaceOutlier(t, m, k).0, ReplaceOutlier(t, m, k).1)
  {
    var v := ReplaceOutlier(t, m, k).1;
    OthersShare(Sum(t), t[k], m, |t| as real);
    SumWithout(t, k);
    SumUpdate(t, k, v);
  }

  /**
   * The tie branch with the naive mean halfway between the extremes: the re-evaluated
   * `min_element` finds the original first minimum, both extremes become the naive mean,
   * and the sum is kept.
   */
  lemma ResetExtremesMeaning(t: seq<real>, m: real)
    requires |t| > 0
    requires t[MaxElement(t)] - m == m - t[MinElement(t)]
    requires t[MinElement(t)] <= m
    ensures MinElement(t[MaxElement(t) := m]) == MinElement(t)
    ensures ResetExtremes(t, m) == (t[MaxElement(t) := m][MinElement(t) := m], m)
    ensures Sum(ResetExtremes(t, m).0) == Sum(t)
  {
    var iMax, iMin := MaxElement(t), MinElement(t);
    var t1 := t[iMax := m];
    if t[iMax] == t[iMin] {
      assert t1 == t;
    } else {
      assert t[iMin] < m;
      MinElementUnique(t1, iMin);
      SumUpdate(t, iMax, m);
      SumUpdate(t1, iMin, m);
    }
  }

  lemma MaxBranchShape(t: seq<real>, m: real)
    requires |t| > 1
    requires Abs(t[MaxElement(t)] - m) > Abs(t[MinElement(t)] - m)
    ensures CorrectAround(t, m) == ReplaceOutlier(t, m, MaxElement(t))
  {
  }

  lemma MinBranchShape(t: seq<real>, m: real)
    requires |t| > 1
    requires Abs(t[MaxElement(t)] - m) < Abs(t[MinElement(t)] - m)
    ensures CorrectAround(t, m) == ReplaceOutlier(t, m, MinElement(t))
  {
  }

  lemma TieBranchShape(t: seq<real>, m: real)
    requires |t| > 0
    requires Abs(t[MaxElement(t)] - m) == Abs(t[MinElement(t)] - m)
    ensures CorrectAround(t, m) == ResetExtremes(t, m)
  {
  }

  /**
   * Max deviation strictly larger: there are at least two accumulators, only the first
   * maximum is overwritten, and it becomes the mean of the other n - 1 accumulators.
   */
  lemma CorrectMaxBranch(t: seq<real>)
    requires |t| > 0
    requires Abs(t[MaxElement(t)] - Mean(t)) > Abs(t[MinElement(t)] - Mean(t))
    ensures |t| >= 2
    ensures Correct(t).1 == Sum(Without(t, MaxElement(t))) / ((|t| - 1) as real)
    ensures Correct(t).0 == t[MaxElement(t) := Correct(t).1]
    ensures IsNaiveMean(Correct(t).0, Correct(t).1)
  {
    var m := Mean(t);
    NaiveMeanOf(t);
    ExtremesDiffer(t, m);
    MaxBranchShape(t, m);
    ReplaceOutlierMeaning(t, m, MaxElement(t));
  }

  /** Min deviation strictly larger: the symmetric correction of the first minimum. */
  lemma CorrectMinBranch(t: seq<real>)
    requires |t| > 0
    requires Abs(t[MaxElement(t)] - Mean(t)) < Abs(t[MinElement(t)] - Mean(t))
    ensures |t| >= 2
    ensures Correct(t).1 == Sum(Without(t, MinElement(t))) / ((|t| - 1) as real)
    ensures Correct(t).0 == t[MinElement(t) := Correct(t).1]
    ensures IsNaiveMean(Correct(t).0, Correct(t).1)
  {
    var m := Mean(t);
    NaiveMeanOf(t);
    ExtremesDiffer(t, m);
    MinBranchShape(t, m);
    ReplaceOutlierMeaning(t, m, MinElement(t));
  }

  /**
   * Equal deviations: the first maximum and the first minimum (the re-evaluated
   * `min_element` finds the same slot) are both set to the naive mean, which conserves
   * the sum; no division by n - 1 happens on this branch.
   */
  lemma CorrectTieBranch(t: seq<real>)
    requires |t| > 0
    requires Abs(t[MaxElement(t)] - Mean(t)) == Abs(t[MinElement(t)] - Mean(t))
    ensures MinElement(t[MaxElement(t) := Mean(t)]) == MinElement(t)
    ensures Correct(t) == (t[MaxElement(t) := Mean(t)][MinElement(t) := Mean(t)],
                           Mean(t))
    ensures Sum(Correct(t).0) == Sum(t)
    ensures IsNaiveMean(Correct(t).0, Correct(t).1)
  {
    var m := Mean(t);
    NaiveMeanOf(t);
    NaiveMeanBetween(t, m);
    EqualDeviations(t[MaxElement(t)], m, t[MinElement(t)]);
    ResetExtremesMeaning(t, m);
    TieBranchShape(t, m);
    NaiveMeanKept(Correct(t).0, t, m);
  }

  lemma NaiveMeanKept(a: seq<real>, b: seq<real>, m: real)
    requires |a| == |b| && Sum(a) == Sum(b) && IsNaiveMean(b, m)
    ensures IsNaiveMean(a, m)
  {
  }

  /** Whatever the branch, the returned `new_mean` is the mean of the corrected accumulators. */
  lemma CorrectKeepsMean(t: seq<real>)
    requires |t| > 0
    ensures Mean(Correct(t).0) == Correct(t).1
  {
    var m := Mean(t);
    var iMax, iMin := MaxElement(t), MinElement(t);
    if Abs(t[iMax] - m) > Abs(t[iMin] - m) {
      CorrectMaxBranch(t);
    } else if Abs(t[iMax] - m) < Abs(t[iMin] - m) {
      CorrectMinBranch(t);
    } else {
      CorrectTieBranch(t);
    }
    MeanFromSum(Correct(t).0, Correct(t).1);
  }

  /** A single accumulator, or all-equal accumulators, are left as they are (difference zero). */
  lemma CorrectDegenerate(t: seq<real>)
    requires |t| > 0
    requires forall j :: 0 <= j < |t| ==> t[j] == t[0]
    ensures Correct(t) == (t, t[0])
  {
    MeanConstant(t, t[0]);
    assert t[MaxElement(t)] == t[MinElement(t)];
    SingleExtreme(t);
    CorrectTieBranch(t);
    assert t[0 := t[0]] == t;
  }

  /**
   * A full step: the buffer keeps its length; each accumulator other than a corrected
   * extreme is `old + raw`; the result is the mean of the new buffer over the counter.
   */
  lemma StepMeaning(times: seq<real>, raw: seq<real>, iteration: nat)
    requires |times| == |raw| > 0
    requires iteration >= 1
    ensures var t := Accumulate(times, raw);
            var r := Step(times, raw, iteration);
            && |r.0| == |times|
            && r.1 == Mean(r.0) / (iteration as real)
            && forall j :: 0 <= j < |times| && j != MaxElement(t) && j != MinElement(t) ==>
                 r.0[j] == times[j] + raw[j]
  {
    var t := Accumulate(times, raw);
    CorrectKeepsMean(t);
    var m := Mean(t);
    var iMax, iMin := MaxElement(t), MinElement(t);
    if Abs(t[iMax] - m) > Abs(t[iMin] - m) {
      CorrectMaxBranch(t);
    } else if Abs(t[iMax] - m) < Abs(t[iMin] - m) {
      CorrectMinBranch(t);
    } else {
      CorrectTieBranch(t);
    }
  }

  /**
   * Uniform accumulators and uniform data stay uniform: every accumulator becomes
   * `c + v`, nothing is corrected away, and the estimate is `(c + v) / iteration`.
   */
  lemma StepUniform(times: seq<real>, raw: seq<real>, c: real, v: real, iteration: nat)
    requires |times| == |raw| > 0 && iteration >= 1
    requires forall j :: 0 <= j < |times| ==> times[j] == c
    requires forall j :: 0 <= j < |raw| ==> raw[j] == v
    ensures var r := Step(times, raw, iteration);
            && |r.0| == |times|
            && (forall j :: 0 <= j < |r.0| ==> r.0[j] == c + v)
            && r.1 == (c + v) / (iteration as real)
  {
    var t := Accumulate(times, raw);
    assert forall j :: 0 <= j < |t| ==> t[j] == t[0];
    CorrectDegenerate(t);
  }
}
