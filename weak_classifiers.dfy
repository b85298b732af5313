/** The pool of hard-wired threshold classifiers over integer features
    (adaboost.cpp, namespace DM_AG, the WEAK_CLASSIFIER section). */
module WeakClassifiers {

  /** A label of the system: every ground-truth label and every prediction is +1 or -1. */
  predicate IsLabel(y: int) {
    y == 1 || y == -1
  }

  /** The closed set of weak classifiers the repository defines. Each one is stateless
      and accepts an open interval of features. */
  datatype WeakClassifier =
    | WeakClassifierOne
    | WeakClassifierTwo
    | WeakClassifierThree
    | WeakClassifierFour
  {
    /** Exclusive lower end of the interval this classifier accepts. */
    function Lo(): int {
      match this
      case WeakClassifierOne => 50
      case WeakClassifierTwo => 80
      case WeakClassifierThree => 90
      case WeakClassifierFour => 40
    }

    /** Exclusive upper end of the interval this classifier accepts. */
    function Hi(): int {
      match this
      case WeakClassifierOne => 90
      case WeakClassifierTwo => 130
      case WeakClassifierThree => 130
      case WeakClassifierFour => 150
    }

    /** `analyze`: +1 for a feature strictly inside the interval (Lo, Hi), -1 otherwise. */
    function Analyze(i: int): (r: int)
      ensures IsLabel(r)
      ensures r == 1 <==> Lo() < i < Hi()
    {
      match this
      case WeakClassifierOne => if i > 50 && i < 90 then 1 else -1
      case WeakClassifierTwo => if i > 80 && i < 130 then 1 else -1
      case WeakClassifierThree => if i > 90 && i < 130 then 1 else -1
      case WeakClassifierFour => if i > 40 && i < 150 then 1 else -1
    }
  }
}
