/** Sums of real weights and the weight-distribution invariant of the trainer. */
module Distribution {

  /** Sum of the weights in index order, the order in which the trainer accumulates. */
  function Sum(s: seq<real>): real
  {
    if |s| == 0 then 0.0 else Sum(s[..|s| - 1]) + s[|s| - 1]
  }

  /** Every weight is strictly positive. */
  predicate Positive(s: seq<real>) {
    forall j :: 0 <= j < |s| ==> s[j] > 0.0
  }

  /** Every weight is non-negative. */
  predicate NonNegative(s: seq<real>) {
    forall j :: 0 <= j < |s| ==> s[j] >= 0.0
  }

  /** A weight distribution D: positive weights that sum to one. */
  predicate IsDistribution(s: seq<real>) {
    Positive(s) && Sum(s) == 1.0
  }

  /** Non-negative weights have a non-negative sum. */
  lemma {:induction false} SumOfNonNegative(s: seq<real>)
    requires NonNegative(s)
    ensures Sum(s) >= 0.0
  {
    if |s| > 0 {
      SumOfNonNegative(s[..|s| - 1]);
    }
  }

  /** A non-empty sequence of positive weights has a positive sum. */
  lemma {:induction false} SumOfPositive(s: seq<real>)
    requires |s| > 0 && Positive(s)
    ensures Sum(s) > 0.0
  {
    if |s| > 1 {
      SumOfPositive(s[..|s| - 1]);
    }
  }

  /** A sequence of n copies of v sums to n * v. */
  lemma {:induction false} SumOfConstant(s: seq<real>, v: real)
    requires forall j :: 0 <= j < |s| ==> s[j] == v
    ensures Sum(s) == |s| as real * v
  {
    if |s| > 0 {
      SumOfConstant(s[..|s| - 1], v);
    }
  }

  /** Dividing every weight by z divides the sum by z. */
  lemma {:induction false} SumOfScaled(s: seq<real>, t: seq<real>, z: real)
    requires z != 0.0 && |t| == |s|
    requires forall j :: 0 <= j < |s| ==> t[j] == s[j] / z
    ensures Sum(t) == Sum(s) / z
  {
    if |s| > 0 {
      var n := |s| - 1;
      SumOfScaled(s[..n], t[..n], z);
      calc {
        Sum(t);
        Sum(t[..n]) + t[n];
        Sum(s[..n]) / z + s[n] / z;
        (Sum(s[..n]) + s[n]) / z;
        Sum(s) / z;
      }
    }
  }

  /** The initial distribution: 1/n in every one of n slots. */
  function Uniform(n: nat): (d: seq<real>)
    requires n >= 1
    ensures |d| == n && IsDistribution(d)
  {
    var d := seq(n, _ => 1.0 / n as real);
    SumOfConstant(d, 1.0 / n as real);
    d
  }

  /** Each weight divided by the total, so that the result is a distribution again. */
  function Normalized(s: seq<real>): (t: seq<real>)
    requires |s| > 0 && Positive(s)
    ensures |t| == |s| && IsDistribution(t)
  {
    SumOfPositive(s);
    var z := Sum(s);
    var t := seq(|s|, j requires 0 <= j < |s| => s[j] / z);
    SumOfScaled(s, t, z);
    assert Sum(s) / z == 1.0;
    t
  }
}
