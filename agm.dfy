/**
 * The arithmetic-geometric mean strategy (class `AGM` of Itmean.h): a two-slot
 * working vector `a` whose slot 0 holds a geometric and slot 1 an arithmetic mean.
 * `pow` from the C math library is a parameter: nothing here depends on what it computes.
 */
module AgmMean {
  import opened Folds

  type Pow = (real, real) -> real

  /** `AGM::geometric_mean`: the product of the data raised to the power 1 / count. */
  function GeometricMean(data: seq<real>, pow: Pow): real
    requires |data| > 0
  {
    pow(Product(data), 1.0 / (|data| as real))
  }

  /** `AGM::reset`: the working pair is re-seeded with the two means of the data. */
  function Reset(raw: seq<real>, pow: Pow): (a: seq<real>)
    requires |raw| > 0
    ensures |a| == 2
    ensures a[1] * (|raw| as real) == Sum(raw)
    ensures raw[MinElement(raw)] <= a[1] <= raw[MaxElement(raw)]
  {
    MeanBounds(raw);
    [GeometricMean(raw, pow), Mean(raw)]
  }

  /**
   * `AGM::step_average`: the returned value is the arithmetic mean of the pair and goes
   * to slot 1; slot 0 gets the geometric mean of the pair as it was before the step
   * (`a` is passed by value before it is overwritten).
   */
  function Step(a: seq<real>, pow: Pow): (r: (seq<real>, real))
    requires |a| == 2
    ensures |r.0| == 2 && r.0[1] == r.1
    ensures r.1 * 2.0 == Sum(a)
    ensures a[0] <= a[1] ==> a[0] <= r.1 <= a[1]
    ensures a[1] <= a[0] ==> a[1] <= r.1 <= a[0]
  {
    MeanBounds(a);
    var a1Next := Mean(a);
    (a[0 := GeometricMean(a, pow)][1 := a1Next], a1Next)
  }

  /** The seed pair: slot 1 is the mean of the data and lies within the data's range. */
  lemma ResetPair(raw: seq<real>, pow: Pow)
    requires |raw| > 0
    ensures |Reset(raw, pow)| == 2
    ensures Reset(raw, pow)[0] == pow(Product(raw), 1.0 / (|raw| as real))
    ensures Reset(raw, pow)[1] == Sum(raw) / (|raw| as real)
    ensures raw[MinElement(raw)] <= Reset(raw, pow)[1] <= raw[MaxElement(raw)]
  {
    MeanBounds(raw);
  }

  /**
   * One step in closed form: the returned estimate is `(a[0] + a[1]) / 2`, stored in
   * slot 1, it lies between the two old values, and slot 0 becomes `pow(a[0] * a[1], 1/2)`.
   */
  lemma StepPair(a: seq<real>, pow: Pow)
    requires |a| == 2
    ensures |Step(a, pow).0| == 2
    ensures Step(a, pow).1 == (a[0] + a[1]) / 2.0
    ensures Step(a, pow).0[1] == Step(a, pow).1
    ensures Step(a, pow).0[0] == pow(a[0] * a[1], 0.5)
    ensures a[0] <= a[1] ==> a[0] <= Step(a, pow).1 <= a[1]
    ensures a[1] <= a[0] ==> a[1] <= Step(a, pow).1 <= a[0]
  {
    var front := a[..1];
    assert front[..0] == [] && front[0] == a[0];
    assert Sum(front) == a[0];
    assert Product(front) == a[0];
    assert a[..|a| - 1] == front;
    assert Sum(a) == a[0] + a[1];
    assert Product(a) == a[0] * a[1];
  }

  /**
   * Uniform data is a fixed point: when every datum is `v` and `pow` takes the geometric
   * mean of `v`s back to `v`, the seed pair is `[v, v]` and a step keeps it and returns `v`.
   */
  lemma UniformFixedPoint(raw: seq<real>, v: real, pow: Pow)
    requires |raw| > 0
    requires forall j :: 0 <= j < |raw| ==> raw[j] == v
    requires pow(Product(raw), 1.0 / (|raw| as real)) == v
    requires pow(v * v, 0.5) == v
    ensures Reset(raw, pow) == [v, v]
    ensures Step([v, v], pow) == ([v, v], v)
  {
    MeanConstant(raw, v);
    var a := [v, v];
    StepPair(a, pow);
    var r := Step(a, pow);
    assert a[0] * a[1] == v * v;
    assert r.0[0] == v && r.0[1] == v;
    assert r.0 == a;
  }
}
