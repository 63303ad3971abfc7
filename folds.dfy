/**
 * The standard-library algorithms the header relies on, over `real` (the model's
 * stand-in for `double`, with exact arithmetic):
 * `accumulate` with `+` and with `multiplies`, `max_element`, `min_element` and `abs`.
 */
module Folds {

  function Abs(x: real): real
  {
    if x < 0.0 then -x else x
  }

  /** `accumulate(begin, end, 0.0)`: a left fold with `+`, starting from zero. */
  function Sum(s: seq<real>): (r: real)
  {
    if |s| == 0 then 0.0 else Sum(s[..|s| - 1]) + s[|s| - 1]
  }

  /** `accumulate(begin, end, 1.0, multiplies<double>())`: a left fold with `*`, starting from one. */
  function Product(s: seq<real>): (r: real)
  {
    if |s| == 0 then 1.0 else Product(s[..|s| - 1]) * s[|s| - 1]
  }

  /**
   * `max_element`: the index of the FIRST largest element (the scan replaces its
   * candidate only on a strictly larger value).
   */
  function MaxElement(s: seq<real>): (k: nat)
    requires |s| > 0
    ensures k < |s|
    ensures forall j :: 0 <= j < |s| ==> s[j] <= s[k]
    ensures forall j :: 0 <= j < k ==> s[j] < s[k]
  {
    MaxIn(s, |s|)
  }

  /** The first largest element among the first `n`. */
  function MaxIn(s: seq<real>, n: nat): (k: nat)
    requires 0 < n <= |s|
    ensures k < n
    ensures forall j :: 0 <= j < n ==> s[j] <= s[k]
    ensures forall j :: 0 <= j < k ==> s[j] < s[k]
  {
    if n == 1 then 0
    else
      var k := MaxIn(s, n - 1);
      if s[k] < s[n - 1] then n - 1 else k
  }

  /** `min_element`: the index of the FIRST smallest element. */
  function MinElement(s: seq<real>): (k: nat)
    requires |s| > 0
    ensures k < |s|
    ensures forall j :: 0 <= j < |s| ==> s[k] <= s[j]
    ensures forall j :: 0 <= j < k ==> s[k] < s[j]
  {
    MinIn(s, |s|)
  }

  /** The first smallest element among the first `n`. */
  function MinIn(s: seq<real>, n: nat): (k: nat)
    requires 0 < n <= |s|
    ensures k < n
    ensures forall j :: 0 <= j < n ==> s[k] <= s[j]
    ensures forall j :: 0 <= j < k ==> s[k] < s[j]
  {
    if n == 1 then 0
    else
      var k := MinIn(s, n - 1);
      if s[n - 1] < s[k] then n - 1 else k
  }

  /** The contract of `MinElement` pins the index down: any first-occurrence minimum is it. */
  lemma MinElementUnique(s: seq<real>, k: nat)
    requires k < |s|
    requires forall j :: 0 <= j < |s| ==> s[k] <= s[j]
    requires forall j :: 0 <= j < k ==> s[k] < s[j]
    ensures MinElement(s) == k
  {
  }

  /** The elements of `s` other than the one at `k`, in order. */
  function Without(s: seq<real>, k: nat): (r: seq<real>)
    requires k < |s|
    ensures |r| == |s| - 1
    ensures forall j :: 0 <= j < k ==> r[j] == s[j]
    ensures forall j :: k <= j < |r| ==> r[j] == s[j + 1]
  {
    s[..k] + s[k + 1..]
  }

  /** Taking one element out of a sum: the rest sums to the total minus that element. */
  lemma {:induction false} SumWithout(s: seq<real>, k: nat)
    requires k < |s|
    ensures Sum(Without(s, k)) == Sum(s) - s[k]
  {
    var front := s[..|s| - 1];
    if k == |s| - 1 {
      assert Without(s, k) == front;
    } else {
      var w := Without(s, k);
      assert w[..|w| - 1] == Without(front, k);
      SumWithout(front, k);
    }
  }

  /** Overwriting one element changes the sum by exactly the difference. */
  lemma {:induction false} SumUpdate(s: seq<real>, k: nat, v: real)
    requires k < |s|
    ensures Sum(s[k := v]) == Sum(s) - s[k] + v
  {
    var front := s[..|s| - 1];
    if k == |s| - 1 {
      assert s[k := v][..|s| - 1] == front;
    } else {
      assert s[k := v][..|s| - 1] == front[k := v];
      SumUpdate(front, k, v);
    }
  }

  /** Every element between `lo` and `hi` bounds the sum between `n * lo` and `n * hi`. */
  lemma {:induction false} SumBounds(s: seq<real>, lo: real, hi: real)
    requires forall j :: 0 <= j < |s| ==> lo <= s[j] <= hi
    ensures (|s| as real) * lo <= Sum(s) <= (|s| as real) * hi
  {
    if |s| > 0 {
      SumBounds(s[..|s| - 1], lo, hi);
    }
  }

  /** A zero factor makes the product zero. */
  lemma {:induction false} ProductZero(s: seq<real>, k: nat)
    requires k < |s| && s[k] == 0.0
    ensures Product(s) == 0.0
  {
    if k < |s| - 1 {
      ProductZero(s[..|s| - 1], k);
    }
  }

  /** Adding two sequences element by element adds their sums. */
  lemma {:induction false} SumPointwise(a: seq<real>, b: seq<real>, c: seq<real>)
    requires |a| == |b| == |c|
    requires forall j :: 0 <= j < |c| ==> c[j] == a[j] + b[j]
    ensures Sum(c) == Sum(a) + Sum(b)
  {
    if |c| > 0 {
      var n := |c| - 1;
      SumPointwise(a[..n], b[..n], c[..n]);
    }
  }

  /**
   * `accumulate(begin, end, 0.0) / size()`: both `AGM::arithmetic_mean` and ClocksAtSea's
   * `naivmean`. Stated without the division, the sum is the mean times the count.
   */
  function Mean(data: seq<real>): (m: real)
    requires |data| > 0
    ensures m * (|data| as real) == Sum(data)
  {
    Sum(data) / (|data| as real)
  }

  /** The mean lies between the smallest and the largest element. */
  lemma MeanBounds(data: seq<real>)
    requires |data| > 0
    ensures data[MinElement(data)] <= Mean(data) <= data[MaxElement(data)]
  {
    MeanBetween(data, data[MinElement(data)], data[MaxElement(data)]);
  }

  /** Bounds on every element carry over to the mean. */
  lemma MeanBetween(data: seq<real>, lo: real, hi: real)
    requires |data| > 0
    requires forall j :: 0 <= j < |data| ==> lo <= data[j] <= hi
    ensures lo <= Mean(data) <= hi
  {
    SumBounds(data, lo, hi);
    DivBetween(Sum(data), |data| as real, lo, hi);
  }

  lemma DivBetween(x: real, n: real, lo: real, hi: real)
    requires n > 0.0
    requires n * lo <= x <= n * hi
    ensures lo <= x / n <= hi
  {
  }

  /** When every element equals `v`, so does the mean. */
  lemma MeanConstant(data: seq<real>, v: real)
    requires |data| > 0
    requires forall j :: 0 <= j < |data| ==> data[j] == v
    ensures Mean(data) == v
  {
    MeanBetween(data, v, v);
  }
}
