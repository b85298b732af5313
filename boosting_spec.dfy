/** What one call of `ADA<T>::ada_boost` computes, as functions over values:
    the prediction matrix, the weighted errors, the first-minimum selection,
    one boosting round and the state after k rounds. The exponential and the
    coefficient formula are parameters of the model (see README). */
module BoostingSpec {
  import opened WeakClassifiers
  import opened Distribution

  /** The prediction matrix: entry (c, j) is classifier c applied to feature j, for the
      first n features. */
  function Predictions(pool: seq<WeakClassifier>, data: seq<int>, n: nat): (p: seq<seq<int>>)
    requires n <= |data|
    ensures |p| == |pool| && Shaped(p, n)
    ensures forall c, j :: 0 <= c < |pool| && 0 <= j < n ==> IsLabel(p[c][j])
  {
    seq(|pool|, c requires 0 <= c < |pool| =>
      seq(n, j requires 0 <= j < n => pool[c].Analyze(data[j])))
  }

  /** Every row of the matrix has one entry per training example. */
  predicate Shaped(p: seq<seq<int>>, n: nat) {
    forall c :: 0 <= c < |p| ==> |p[c]| == n
  }

  /** What the trainer needs of its inputs: at least one example, no more classifiers than
      examples (the coefficient vector has one slot per example), a well-shaped matrix. */
  predicate Setup(p: seq<seq<int>>, labels: seq<int>) {
    |labels| >= 1 && |p| <= |labels| && Shaped(p, |labels|)
  }

  /** The exponential of the reweighting step is strictly positive. */
  ghost predicate PositiveValued(exp: real -> real) {
    forall x :: exp(x) > 0.0
  }

  /** Weighted error of one row: the weight of the examples whose prediction differs from
      the label, accumulated in index order. */
  function WeightedError(row: seq<int>, labels: seq<int>, d: seq<real>): real
    requires |row| == |labels| == |d|
  {
    if |row| == 0 then 0.0
    else
      var n := |row| - 1;
      WeightedError(row[..n], labels[..n], d[..n]) + (if row[n] != labels[n] then d[n] else 0.0)
  }

  /** The weighted error of every classifier slot. */
  function Errors(p: seq<seq<int>>, labels: seq<int>, d: seq<real>): (errs: seq<real>)
    requires Shaped(p, |labels|) && |d| == |labels|
    ensures |errs| == |p|
  {
    seq(|p|, c requires 0 <= c < |p| => WeightedError(p[c], labels, d))
  }

  /** Outcome of the scan over the classifiers: running minimum and its slot. */
  datatype Choice = Choice(minError: real, best: nat)

  /** The scan of the classifiers in slot order: the running minimum starts at `start`
      and moves only on a strictly smaller error. */
  function Selection(errs: seq<real>, start: real): Choice
  {
    if |errs| == 0 then Choice(start, 0)
    else
      var prev := Selection(errs[..|errs| - 1], start);
      if errs[|errs| - 1] < prev.minError then Choice(errs[|errs| - 1], |errs| - 1) else prev
  }

  /** The scan finds the first slot of minimal error, when some error is below `start`;
      otherwise it keeps `start` and slot 0. */
  lemma {:induction false} SelectionIsFirstMinimum(errs: seq<real>, start: real)
    ensures var ch := Selection(errs, start);
      && ch.minError <= start
      && (ch.minError < start <==> exists c :: 0 <= c < |errs| && errs[c] < start)
      && (ch.minError < start ==> ch.best < |errs| && errs[ch.best] == ch.minError)
      && (ch.minError == start ==> ch.best == 0)
      && (forall c :: 0 <= c < |errs| ==> ch.minError <= errs[c])
      && (forall c :: 0 <= c < ch.best ==> ch.minError < errs[c])
  {
    if |errs| > 0 {
      var n := |errs| - 1;
      SelectionIsFirstMinimum(errs[..n], start);
      var prev := Selection(errs[..n], start);
      assert forall c :: 0 <= c < n ==> errs[..n][c] == errs[c];
      if errs[n] < prev.minError {
      } else {
        assert Selection(errs, start) == prev;
      }
    }
  }

  /** The weighted error lies between 0 and the total weight. */
  lemma {:induction false} WeightedErrorBounds(row: seq<int>, labels: seq<int>, d: seq<real>)
    requires |row| == |labels| == |d| && NonNegative(d)
    ensures 0.0 <= WeightedError(row, labels, d) <= Sum(d)
  {
    if |row| > 0 {
      var n := |row| - 1;
      WeightedErrorBounds(row[..n], labels[..n], d[..n]);
    }
  }

  /** Under positive weights, a classifier has zero error exactly when its row equals the labels. */
  lemma {:induction false} WeightedErrorZeroIff(row: seq<int>, labels: seq<int>, d: seq<real>)
    requires |row| == |labels| == |d| && Positive(d)
    ensures WeightedError(row, labels, d) == 0.0 <==> row == labels
  {
    if |row| > 0 {
      var n := |row| - 1;
      WeightedErrorZeroIff(row[..n], labels[..n], d[..n]);
      WeightedErrorBounds(row[..n], labels[..n], d[..n]);
      if row == labels {
        assert row[..n] == labels[..n];
      } else {
        var j :| 0 <= j < |row| && row[j] != labels[j];
        if j < n {
          assert row[..n][j] != labels[..n][j];
        }
      }
    }
  }

  /** The factor exp(-alpha * label * prediction) applied to one example's weight. */
  function Factor(exp: real -> real, alpha: real, y: int, h: int): real
  {
    exp(-alpha * y as real * h as real)
  }

  /** The reweighted copy D_1: each weight multiplied by exp(-alpha * label * prediction). */
  function Reweighted(d: seq<real>, labels: seq<int>, row: seq<int>, alpha: real, exp: real -> real): (d1: seq<real>)
    requires |d| == |labels| == |row|
    ensures |d1| == |d|
  {
    seq(|d|, j requires 0 <= j < |d| => d[j] * Factor(exp, alpha, labels[j], row[j]))
  }

  /** Slot j of the reweighted copy. */
  lemma ReweightedAt(d: seq<real>, labels: seq<int>, row: seq<int>, alpha: real, exp: real -> real, j: nat)
    requires |d| == |labels| == |row| && j < |d|
    ensures Reweighted(d, labels, row, alpha, exp)[j] == d[j] * Factor(exp, alpha, labels[j], row[j])
  {
  }

  /** With a positive exponential, reweighting keeps every weight positive. */
  lemma ReweightedPositive(d: seq<real>, labels: seq<int>, row: seq<int>, alpha: real, exp: real -> real)
    requires |d| == |labels| == |row| && PositiveValued(exp) && Positive(d)
    ensures Positive(Reweighted(d, labels, row, alpha, exp))
  {
    var d1 := Reweighted(d, labels, row, alpha, exp);
    forall j | 0 <= j < |d|
      ensures d1[j] > 0.0
    {
      assert Factor(exp, alpha, labels[j], row[j]) > 0.0;
    }
  }

  /** The trainer's evolving state: the distribution D and the coefficients alpha. */
  datatype TrainState = TrainState(d: seq<real>, alpha: seq<real>)

  /** Both vectors have one slot per example, and D is a distribution. */
  predicate Invariant(st: TrainState, n: nat) {
    |st.d| == n && |st.alpha| == n && IsDistribution(st.d)
  }

  /** D is 1/N everywhere and every coefficient is zero. */
  function Initial(n: nat): (st: TrainState)
    requires n >= 1
    ensures Invariant(st, n)
  {
    TrainState(Uniform(n), seq(n, _ => 0.0))
  }

  /** A round either stops the training or yields the next state. */
  datatype RoundResult = Stopped | Completed(next: TrainState)

  /** One round: select the first classifier of minimal weighted error; stop if that error
      is at least 1/2; otherwise overwrite its coefficient with alphaOf(error) and replace D
      by the normalised reweighted copy. */
  function Round(p: seq<seq<int>>, labels: seq<int>, exp: real -> real, alphaOf: real -> real,
                 st: TrainState): (r: RoundResult)
    requires Setup(p, labels) && PositiveValued(exp) && Invariant(st, |labels|)
    ensures r.Completed? ==> Invariant(r.next, |labels|)
  {
    var errs := Errors(p, labels, st.d);
    var ch := Selection(errs, |labels| as real);
    if ch.minError >= 0.5 then Stopped
    else
      SelectionIsFirstMinimum(errs, |labels| as real);
      var a := alphaOf(ch.minError);
      ReweightedPositive(st.d, labels, p[ch.best], a, exp);
      Completed(TrainState(Normalized(Reweighted(st.d, labels, p[ch.best], a, exp)),
                           st.alpha[ch.best := a]))
  }

  /** The state after at most k rounds: a stopped round leaves the state as it was. */
  function Train(p: seq<seq<int>>, labels: seq<int>, exp: real -> real, alphaOf: real -> real,
                 k: nat): (st: TrainState)
    requires Setup(p, labels) && PositiveValued(exp)
    ensures Invariant(st, |labels|)
  {
    if k == 0 then Initial(|labels|)
    else
      var prev := Train(p, labels, exp, alphaOf, k - 1);
      match Round(p, labels, exp, alphaOf, prev)
      case Stopped => prev
      case Completed(next) => next
  }
}
