/** `ADA<T>::ada_boost` as the imperative procedure the source is: the prediction matrix,
    the weight vector D and the coefficient vector alpha are arrays updated in place, and
    each loop is proved against the functions of BoostingSpec. */
module AdaBoostTrainer {
  import opened WeakClassifiers
  import opened Distribution
  import opened BoostingSpec
  import opened TrainingFacts

  /** The array m holds the matrix p: same dimensions, same entries. */
  ghost predicate Stores(m: array2<int>, p: seq<seq<int>>)
    reads m
  {
    && m.Length0 == |p|
    && Shaped(p, m.Length1)
    && forall c, j :: 0 <= c < m.Length0 && 0 <= j < m.Length1 ==> m[c, j] == p[c][j]
  }

  /** Runs every classifier of the pool on each of the first n features and stores the
      outcome in a fresh |pool| x n matrix. */
  method BuildPredictions(pool: seq<WeakClassifier>, data: seq<int>, n: nat) returns (m: array2<int>)
    requires n <= |data|
    ensures fresh(m)
    ensures m.Length0 == |pool| && m.Length1 == n
    ensures Stores(m, Predictions(pool, data, n))
  {
    m := new int[|pool|, n];
    var c := 0;
    while c < |pool|
      invariant 0 <= c <= |pool|
      invariant forall c', j :: 0 <= c' < c && 0 <= j < n ==> m[c', j] == pool[c'].Analyze(data[j])
    {
      var j := 0;
      while j < n
        invariant 0 <= j <= n
        invariant forall c', j' :: 0 <= c' < c && 0 <= j' < n ==> m[c', j'] == pool[c'].Analyze(data[j'])
        invariant forall j' :: 0 <= j' < j ==> m[c, j'] == pool[c].Analyze(data[j'])
      {
        m[c, j] := pool[c].Analyze(data[j]);
        j := j + 1;
      }
      c := c + 1;
    }
  }

  /** The weighted error of classifier slot c: the weight of the examples it mislabels. */
  method ComputeError(m: array2<int>, ghost p: seq<seq<int>>, c: nat, labels: seq<int>, d: array<real>)
    returns (error: real)
    requires Stores(m, p) && c < m.Length0 && m.Length1 == |labels| == d.Length
    ensures error == WeightedError(p[c], labels, d[..])
  {
    ghost var row := p[c];
    error := 0.0;
    var j := 0;
    while j < |labels|
      invariant 0 <= j <= |labels|
      invariant error == WeightedError(row[..j], labels[..j], d[..j])
    {
      assert m[c, j] == row[j];
      if m[c, j] != labels[j] {
        error := error + d[j];
      }
      assert row[..j + 1][..j] == row[..j];
      assert labels[..j + 1][..j] == labels[..j];
      assert d[..j + 1][..j] == d[..j];
      j := j + 1;
    }
    assert row[..j] == row && labels[..j] == labels && d[..j] == d[..];
  }

  /** The scan over the classifiers: the running minimum starts at N and moves only on a
      strictly smaller error, so the first slot of minimal error is selected. */
  method SelectBest(m: array2<int>, ghost p: seq<seq<int>>, labels: seq<int>, d: array<real>)
    returns (minError: real, best: nat)
    requires Stores(m, p) && m.Length1 == |labels| == d.Length
    ensures Choice(minError, best) == Selection(Errors(p, labels, d[..]), |labels| as real)
    ensures best == 0 || best < m.Length0
    ensures forall c :: 0 <= c < m.Length0 ==> minError <= WeightedError(p[c], labels, d[..])
    ensures forall c :: 0 <= c < best ==> minError < WeightedError(p[c], labels, d[..])
    ensures minError < |labels| as real ==>
              best < m.Length0 && minError == WeightedError(p[best], labels, d[..])
    ensures minError >= |labels| as real ==> minError == |labels| as real && best == 0
  {
    ghost var errs := Errors(p, labels, d[..]);
    minError := |labels| as real;
    best := 0;
    var c := 0;
    while c < m.Length0
      invariant 0 <= c <= m.Length0
      invariant Choice(minError, best) == Selection(errs[..c], |labels| as real)
    {
      var error := ComputeError(m, p, c, labels, d);
      assert errs[..c + 1][..c] == errs[..c];
      if error < minError {
        minError := error;
        best := c;
      }
      c := c + 1;
    }
    assert errs[..c] == errs;
    SelectionIsFirstMinimum(errs, |labels| as real);
    assert forall c :: 0 <= c < m.Length0 ==> errs[c] == WeightedError(p[c], labels, d[..]);
  }

  /** D_{t+1}: a copy of D in which every weight is multiplied by exp(-a * label * prediction)
      of the selected classifier. */
  method Reweight(d: array<real>, labels: seq<int>, m: array2<int>, ghost p: seq<seq<int>>, best: nat,
                  a: real, exp: real -> real)
    returns (d1: array<real>)
    requires Stores(m, p) && best < m.Length0 && m.Length1 == |labels| == d.Length
    ensures fresh(d1)
    ensures d1[..] == Reweighted(d[..], labels, p[best], a, exp)
  {
    var n := d.Length;
    ghost var d0 := d[..];
    ghost var row := p[best];
    ghost var rw := Reweighted(d0, labels, row, a, exp);
    d1 := new real[n];
    for j := 0 to n
      invariant forall k :: 0 <= k < j ==> d1[k] == rw[k]
      modifies d1
    {
      assert m[best, j] == row[j] && d[j] == d0[j];
      ReweightedAt(d0, labels, row, a, exp, j);
      d1[j] := d[j] * Factor(exp, a, labels[j], m[best, j]);
    }
    assert d1[..] == rw;
  }

  /** The normalising constant z: the running total of the reweighted copy. */
  method Total(d1: array<real>) returns (z: real)
    ensures z == Sum(d1[..])
  {
    z := 0.0;
    for j := 0 to d1.Length
      invariant z == Sum(d1[..j])
    {
      assert d1[..j + 1][..j] == d1[..j];
      z := z + d1[j];
    }
    assert d1[..d1.Length] == d1[..];
  }

  /** Overwrites D with the reweighted copy divided by its sum z, so that D is a
      distribution again. */
  method Normalize(d: array<real>, d1: array<real>, z: real)
    requires d1.Length == d.Length > 0 && d1 != d
    requires Positive(d1[..]) && z == Sum(d1[..])
    modifies d
    ensures d[..] == Normalized(d1[..]) && IsDistribution(d[..])
  {
    SumOfPositive(d1[..]);
    for j := 0 to d.Length
      invariant forall k :: 0 <= k < j ==> d[k] == d1[k] / z
    {
      d[j] := d1[j] / z;
    }
  }

  /** One round of the trainer, in place on D and alpha: select the first classifier of
      minimal weighted error; stop when that error is at least 1/2; otherwise overwrite its
      coefficient, reweight a copy of D and store the normalised copy back into D. */
  method BoostRound(m: array2<int>, ghost p: seq<seq<int>>, labels: seq<int>, dv: array<real>,
                    alphaV: array<real>, exp: real -> real, alphaOf: real -> real) returns (stop: bool)
    requires Stores(m, p) && Setup(p, labels) && PositiveValued(exp)
    requires dv != alphaV && dv.Length == alphaV.Length == |labels| == m.Length1
    requires Invariant(TrainState(dv[..], alphaV[..]), |labels|)
    modifies dv, alphaV
    ensures var r := Round(p, labels, exp, alphaOf, old(TrainState(dv[..], alphaV[..])));
      if stop then r.Stopped? && dv[..] == old(dv[..]) && alphaV[..] == old(alphaV[..])
      else r == Completed(TrainState(dv[..], alphaV[..]))
  {
    ghost var st := TrainState(dv[..], alphaV[..]);
    var minError, best := SelectBest(m, p, labels, dv);
    assert Choice(minError, best) == Selection(Errors(p, labels, st.d), |labels| as real);
    if minError >= 0.5 {
      return true;
    }
    alphaV[best] := alphaOf(minError);
    var d1 := Reweight(dv, labels, m, p, best, alphaV[best], exp);
    var z := Total(d1);
    ReweightedPositive(st.d, labels, p[best], alphaV[best], exp);
    Normalize(dv, d1, z);
    return false;
  }

  /** Fresh D and alpha vectors of n slots: D is 1/n everywhere, alpha is all zero. */
  method InitBoosters(n: nat) returns (dv: array<real>, alphaV: array<real>)
    requires n >= 1
    ensures fresh(dv) && fresh(alphaV) && dv != alphaV
    ensures TrainState(dv[..], alphaV[..]) == Initial(n)
  {
    dv := new real[n](_ => 0.0);
    alphaV := new real[n](_ => 0.0);
    for j := 0 to n
      invariant forall k :: 0 <= k < j ==> dv[k] == 1.0 / n as real
      modifies dv
    {
      dv[j] := 1.0 / n as real;
    }
    assert dv[..] == Uniform(n) by {
      assert forall k :: 0 <= k < n ==> dv[..][k] == Uniform(n)[k];
    }
    assert alphaV[..] == Initial(n).alpha by {
      assert forall k :: 0 <= k < n ==> alphaV[..][k] == Initial(n).alpha[k];
    }
  }

  /** Discrete AdaBoost over a pool of weak classifiers: returns the coefficient vector,
      which has one slot per training example. `exp` is the exponential and `alphaOf` the
      coefficient formula 1/2 ln((1 - e) / e). */
  method AdaBoost(pool: seq<WeakClassifier>, data: seq<int>, labels: seq<int>, numIterations: nat,
                  exp: real -> real, alphaOf: real -> real) returns (alpha: seq<real>)
    requires 1 <= |labels| <= |data| && |pool| <= |labels|
    requires PositiveValued(exp)
    ensures alpha == Train(Predictions(pool, data, |labels|), labels, exp, alphaOf, numIterations).alpha
  {
    var n := |labels|;
    var m := BuildPredictions(pool, data, n);
    ghost var p := Predictions(pool, data, n);
    var dv, alphaV := InitBoosters(n);

    var round := 0;
    while round < numIterations
      invariant round <= numIterations
      invariant Stores(m, p)
      invariant TrainState(dv[..], alphaV[..]) == Train(p, labels, exp, alphaOf, round)
      modifies dv, alphaV
    {
      var stop := BoostRound(m, p, labels, dv, alphaV, exp, alphaOf);
      if stop {
        StoppedStaysStopped(p, labels, exp, alphaOf, round, numIterations);
        break;
      }
      round := round + 1;
    }
    alpha := alphaV[..];
  }
}
