/** `StrongClassifier<T>`: the linear combination of the weak classifiers under the
    coefficients produced by the trainer, classified by the sign of the weighted vote. */
module StrongClassifiers {
  import opened WeakClassifiers
  import opened Distribution
  import opened BoostingSpec
  import opened TrainingFacts

  /** The weighted vote of the first n classifiers on feature x. */
  function Vote(w: seq<real>, cls: seq<WeakClassifier>, x: int, n: nat): real
    requires n <= |w| && n <= |cls|
  {
    if n == 0 then 0.0 else Vote(w, cls, x, n - 1) + w[n - 1] * cls[n - 1].Analyze(x) as real
  }

  /** The coefficients, the collection of weak classifiers (whose size the source records at
      construction) and the training labels, which the classifier keeps but never reads. */
  datatype StrongClassifier = StrongClassifier(weights: seq<real>, classifiers: seq<WeakClassifier>,
                                               labels: seq<int>)
  {
    /** Accumulates the weighted vote over every classifier of the collection and answers +1
        when it is at least zero (ties go to +1), -1 otherwise. The coefficient vector is
        read at every classifier slot, so it must be at least as long as the collection. */
    method Analyze(x: int) returns (r: int)
      requires |classifiers| <= |weights|
      ensures IsLabel(r)
      ensures r == 1 <==> Vote(weights, classifiers, x, |classifiers|) >= 0.0
    {
      var val := 0.0;
      for c := 0 to |classifiers|
        invariant val == Vote(weights, classifiers, x, c)
      {
        val := val + weights[c] * classifiers[c].Analyze(x) as real;
      }
      if val >= 0.0 {
        r := 1;
      } else {
        r := -1;
      }
    }
  }

  /** With all coefficients zero the vote is zero, so every feature is classified +1. */
  lemma {:induction false} ZeroWeightsVoteZero(w: seq<real>, cls: seq<WeakClassifier>, x: int, n: nat)
    requires n <= |w| && n <= |cls|
    requires forall c :: 0 <= c < n ==> w[c] == 0.0
    ensures Vote(w, cls, x, n) == 0.0
  {
    if n > 0 {
      ZeroWeightsVoteZero(w, cls, x, n - 1);
    }
  }

  /** When the coefficients are non-negative and every classifier with a positive coefficient
      answers y, the vote leans towards y, strictly so once some coefficient is positive. */
  lemma {:induction false} AgreeingVoteLeans(w: seq<real>, cls: seq<WeakClassifier>, x: int, n: nat, y: int)
    requires n <= |w| && n <= |cls| && IsLabel(y)
    requires forall c :: 0 <= c < n ==> w[c] >= 0.0
    requires forall c :: 0 <= c < n && w[c] > 0.0 ==> cls[c].Analyze(x) == y
    ensures y as real * Vote(w, cls, x, n) >= 0.0
    ensures (exists c :: 0 <= c < n && w[c] > 0.0) ==> y as real * Vote(w, cls, x, n) > 0.0
  {
    if n > 0 {
      AgreeingVoteLeans(w, cls, x, n - 1, y);
      var h := cls[n - 1].Analyze(x);
      var t := w[n - 1] * h as real;
      if w[n - 1] > 0.0 {
        assert h == y;
        assert y as real * t == w[n - 1] by {
          if y == 1 { assert t == w[n - 1]; } else { assert t == -w[n - 1]; }
        }
      } else {
        assert t == 0.0;
      }
      assert y as real * Vote(w, cls, x, n) == y as real * Vote(w, cls, x, n - 1) + y as real * t;
    }
  }

  /** A unanimous vote decides: with non-negative coefficients, some of them positive, and
      all positively weighted classifiers answering y, the strong classifier answers y. */
  lemma UnanimousVote(w: seq<real>, cls: seq<WeakClassifier>, x: int, n: nat, y: int)
    requires n <= |w| && n <= |cls| && IsLabel(y)
    requires forall c :: 0 <= c < n ==> w[c] >= 0.0
    requires forall c :: 0 <= c < n && w[c] > 0.0 ==> cls[c].Analyze(x) == y
    requires exists c :: 0 <= c < n && w[c] > 0.0
    ensures Vote(w, cls, x, n) >= 0.0 <==> y == 1
  {
    AgreeingVoteLeans(w, cls, x, n, y);
  }

  /** The coefficient formula is positive on every error below one half. */
  ghost predicate PositiveBelowHalf(alphaOf: real -> real)
  {
    forall e :: 0.0 <= e < 0.5 ==> alphaOf(e) > 0.0
  }

  /** With a single positive coefficient, at slot b, the strong classifier answers exactly
      as classifier b does. */
  lemma SinglePositiveCoefficient(w: seq<real>, cls: seq<WeakClassifier>, x: int, b: nat)
    requires b < |cls| <= |w|
    requires w[b] > 0.0 && forall c :: 0 <= c < |cls| && c != b ==> w[c] == 0.0
    ensures Vote(w, cls, x, |cls|) >= 0.0 <==> cls[b].Analyze(x) == 1
  {
    UnanimousVote(w, cls, x, |cls|, cls[b].Analyze(x));
  }

  /** After a single completed round from the start state, the strong classifier built from
      the coefficients and the pool answers exactly as the selected weak classifier does. */
  lemma OneRoundFollowsBest(pool: seq<WeakClassifier>, data: seq<int>, labels: seq<int>,
                            exp: real -> real, alphaOf: real -> real, x: int)
    requires 1 <= |labels| <= |data| && |pool| <= |labels|
    requires PositiveValued(exp) && PositiveBelowHalf(alphaOf)
    requires Selection(Errors(Predictions(pool, data, |labels|), labels, Uniform(|labels|)),
                       |labels| as real).minError < 0.5
    ensures var best := Selection(Errors(Predictions(pool, data, |labels|), labels, Uniform(|labels|)),
                                  |labels| as real).best;
      var alpha := Train(Predictions(pool, data, |labels|), labels, exp, alphaOf, 1).alpha;
      && best < |pool|
      && (Vote(alpha, pool, x, |pool|) >= 0.0 <==> pool[best].Analyze(x) == 1)
  {
    var p := Predictions(pool, data, |labels|);
    var ch := Selection(Errors(p, labels, Uniform(|labels|)), |labels| as real);
    FirstRound(p, labels, exp, alphaOf);
    var alpha := Train(p, labels, exp, alphaOf, 1).alpha;
    assert alpha[ch.best] > 0.0;
    SinglePositiveCoefficient(alpha, pool, x, ch.best);
  }
}
