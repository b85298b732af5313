/** Facts about the trainer's run as a whole: the start state, what a single round changes,
    that a stopped run stays stopped, and which coefficient slots can ever be written. */
module TrainingFacts {
  import opened Distribution
  import opened BoostingSpec

  /** With zero rounds the coefficients are all zero and D is uniform. */
  lemma ZeroRounds(p: seq<seq<int>>, labels: seq<int>, exp: real -> real, alphaOf: real -> real)
    requires Setup(p, labels) && PositiveValued(exp)
    ensures var st := Train(p, labels, exp, alphaOf, 0);
      && (forall c :: 0 <= c < |labels| ==> st.alpha[c] == 0.0)
      && (forall j :: 0 <= j < |labels| ==> st.d[j] == 1.0 / |labels| as real)
  {
  }

  /** Once a round stops, every later round stops too and the state no longer changes. */
  lemma {:induction false} StoppedStaysStopped(p: seq<seq<int>>, labels: seq<int>, exp: real -> real,
                                               alphaOf: real -> real, k: nat, n: nat)
    requires Setup(p, labels) && PositiveValued(exp) && k <= n
    requires Round(p, labels, exp, alphaOf, Train(p, labels, exp, alphaOf, k)).Stopped?
    ensures Train(p, labels, exp, alphaOf, n) == Train(p, labels, exp, alphaOf, k)
  {
    if n > k {
      StoppedStaysStopped(p, labels, exp, alphaOf, k, n - 1);
      var prev := Train(p, labels, exp, alphaOf, n - 1);
      assert Round(p, labels, exp, alphaOf, prev).Stopped?;
    }
  }

  /** What a round does to a state: it stops, leaving D and alpha as they were, exactly when
      the first minimal error is at least 1/2; otherwise it writes alphaOf(error) into the slot
      of the first minimal error, leaves every other slot unchanged and renormalises D. */
  lemma RoundEffect(p: seq<seq<int>>, labels: seq<int>, exp: real -> real, alphaOf: real -> real,
                    st: TrainState)
    requires Setup(p, labels) && PositiveValued(exp) && Invariant(st, |labels|)
    ensures var errs := Errors(p, labels, st.d);
      var ch := Selection(errs, |labels| as real);
      var r := Round(p, labels, exp, alphaOf, st);
      && (r.Stopped? <==> ch.minError >= 0.5)
      && (r.Completed? ==>
            && ch.best < |p|
            && (forall c :: 0 <= c < |p| ==> ch.minError <= errs[c])
            && (forall c :: 0 <= c < ch.best ==> ch.minError < errs[c])
            && r.next.alpha[ch.best] == alphaOf(ch.minError)
            && (forall c :: 0 <= c < |labels| && c != ch.best ==> r.next.alpha[c] == st.alpha[c])
            && r.next.d == Normalized(Reweighted(st.d, labels, p[ch.best], alphaOf(ch.minError), exp)))
  {
    SelectionIsFirstMinimum(Errors(p, labels, st.d), |labels| as real);
  }

  /** The coefficient vector has a slot per example, but only the first |pool| slots can ever
      be selected: the others stay zero whatever the number of rounds. */
  lemma {:induction false} SlotsBeyondPoolStayZero(p: seq<seq<int>>, labels: seq<int>, exp: real -> real,
                                                   alphaOf: real -> real, k: nat)
    requires Setup(p, labels) && PositiveValued(exp)
    ensures forall c :: |p| <= c < |labels| ==> Train(p, labels, exp, alphaOf, k).alpha[c] == 0.0
  {
    if k > 0 {
      SlotsBeyondPoolStayZero(p, labels, exp, alphaOf, k - 1);
      RoundEffect(p, labels, exp, alphaOf, Train(p, labels, exp, alphaOf, k - 1));
    }
  }

  /** After a completed first round the selected slot holds alphaOf of its error, which lies
      in [0, 1/2), and every other slot is still zero. */
  lemma FirstRound(p: seq<seq<int>>, labels: seq<int>, exp: real -> real, alphaOf: real -> real)
    requires Setup(p, labels) && PositiveValued(exp)
    requires Selection(Errors(p, labels, Uniform(|labels|)), |labels| as real).minError < 0.5
    ensures var ch := Selection(Errors(p, labels, Uniform(|labels|)), |labels| as real);
      var alpha := Train(p, labels, exp, alphaOf, 1).alpha;
      && ch.best < |p|
      && 0.0 <= ch.minError < 0.5
      && |alpha| == |labels|
      && alpha[ch.best] == alphaOf(ch.minError)
      && (forall c :: 0 <= c < |labels| && c != ch.best ==> alpha[c] == 0.0)
  {
    var st0 := Initial(|labels|);
    var errs := Errors(p, labels, st0.d);
    var ch := Selection(errs, |labels| as real);
    RoundEffect(p, labels, exp, alphaOf, st0);
    assert Train(p, labels, exp, alphaOf, 0) == st0;
    SelectionIsFirstMinimum(errs, |labels| as real);
    WeightedErrorBounds(p[ch.best], labels, st0.d);
  }
}
