# AdaBoost over threshold classifiers, in Dafny

This project models the discrete AdaBoost trainer of `adaboost.cpp` (namespace `DM_AG`).
It covers three parts:

- **Weak classifiers.** The four weak classifiers accept a fixed open interval of integer features.
- **`ADA<T>::ada_boost`.**
  - It runs every weak classifier on every training feature into a prediction matrix.
  - It starts the example weights D at 1/N.
  - Each round, it picks the first classifier of minimal weighted error and stops once that error reaches 1/2.
  - Otherwise it writes the classifier's coefficient, reweights D by exp(-alpha * label * prediction) and renormalises D to a distribution.
- **`StrongClassifier<T>::analyze`.** It classifies a feature by the sign of the coefficient-weighted vote, with ties going to +1.

The model is layered the way the code is written:

- `WeakClassifiers` (weak_classifiers.dfy): the pool of interval classifiers.
- `Distribution` (distribution.dfy): sums of weights. It also holds the distribution invariant: positive weights summing to one. The uniform start `Uniform` and the renormalisation `Normalized` preserve it.
- `BoostingSpec` (boosting_spec.dfy): one call of `ada_boost` as functions over values.
  - `Predictions` is the prediction matrix.
  - `WeightedError` and `Errors` give the weighted errors.
  - `Selection` is the first-minimum scan.
  - `Reweighted` is the reweighting step.
  - `Round` is one boosting round.
  - `Train` is the state (D, alpha) after at most k rounds.
- `TrainingFacts` (training_facts.dfy): lemmas about runs of the trainer.
- `AdaBoostTrainer` (ada_boost.dfy): the procedure itself, imperative as the source is.
  - The matrix is an `array2` and D and alpha are arrays updated in place.
  - Every loop is proved against the functions above.
  - `AdaBoost` returns exactly `Train(...).alpha`.
- `StrongClassifiers` (strong_classifier.dfy): the strong classifier and its vote.

The source's `float` numbers are `real`s here. The exponential (line 149) and the coefficient formula `log((1 - e)/e)/2` (lines 138-139) are parameters of the model, named `exp` and `alphaOf`. Every statement about the weights holds for any strictly positive `exp`. The lemmas about the strong classifier after training assume only that `alphaOf` is positive on errors below 1/2.

## Model

| member | source | states |
|---|---|---|
| WeakClassifiers.WeakClassifier.Analyze | adaboost.cpp:226-264 | each classifier answers +1 exactly when the feature lies strictly inside its interval, (50,90), (80,130), (90,130) or (40,150), and -1 otherwise, so every answer is a label |
| Distribution.Uniform | adaboost.cpp:96-98 | the start distribution has N slots and is a distribution (positive, sums to 1) |
| Distribution.Normalized | adaboost.cpp:155-157 | dividing a positive weight vector by its sum gives a distribution of the same length |
| BoostingSpec.Predictions | adaboost.cpp:70-94 | the matrix has one row per classifier and one column per example, and every entry is a label |
| BoostingSpec.WeightedErrorBounds | adaboost.cpp:116-123 | with non-negative weights a classifier's weighted error lies between 0 and the total weight |
| BoostingSpec.WeightedErrorZeroIff | adaboost.cpp:116-123 | with positive weights the weighted error is 0 exactly when the classifier's row equals the labels |
| BoostingSpec.SelectionIsFirstMinimum | adaboost.cpp:107-129 | the scan from N keeps a value no larger than N. It moves below N iff some error is below N, and then it lands on an error of the selected slot. That value is no larger than any error, every earlier slot has a strictly larger error, and slot 0 is kept when nothing beats N |
| BoostingSpec.ReweightedPositive | adaboost.cpp:142-153 | with a strictly positive exponential, reweighting keeps every weight positive |
| BoostingSpec.Initial | adaboost.cpp:96-98 | the start state satisfies the invariant: D and alpha have N slots (the resize at lines 65-66) and D is a distribution |
| BoostingSpec.Round | adaboost.cpp:107-157 | a completed round keeps the invariant: N slots each, and D still a distribution |
| BoostingSpec.Train | adaboost.cpp:100-159 | after any number of rounds the invariant holds |
| TrainingFacts.ZeroRounds | adaboost.cpp:59-98 | with zero rounds alpha is all zero and D is 1/N everywhere |
| TrainingFacts.StoppedStaysStopped | adaboost.cpp:134-135 | once a round stops, the state after any larger number of rounds is the state at the stop |
| TrainingFacts.RoundEffect | adaboost.cpp:107-157 | a round stops exactly when the first minimal error is at least 1/2. Otherwise the selected slot is a pool slot of minimal error with every earlier slot strictly worse. Its coefficient becomes alphaOf(error), every other coefficient is unchanged, and D becomes the normalised reweighted D |
| TrainingFacts.SlotsBeyondPoolStayZero | adaboost.cpp:137-139 | coefficient slots at or beyond the pool size stay zero after any number of rounds |
| TrainingFacts.FirstRound | adaboost.cpp:134-139 | after a completed first round the selected slot's error lies in [0, 1/2). That slot holds alphaOf(error) and every other slot is zero |
| AdaBoostTrainer.BuildPredictions | adaboost.cpp:70-94 | the fresh matrix has dimensions M x N and entry (c, j) is classifier c applied to feature j |
| AdaBoostTrainer.ComputeError | adaboost.cpp:116-123 | the accumulated error is the weighted error of row c under the current D |
| AdaBoostTrainer.SelectBest | adaboost.cpp:107-129 | the running minimum and slot are those of the first-minimum scan. The minimum is at most every error and strictly below every earlier slot's error. When below N it is the selected slot's error; otherwise it is N and slot 0 |
| AdaBoostTrainer.Reweight | adaboost.cpp:142-151 | the fresh copy holds each weight times exp(-alpha * label * prediction) of the selected row |
| AdaBoostTrainer.Total | adaboost.cpp:145-153 | z is the sum of the reweighted copy |
| AdaBoostTrainer.Normalize | adaboost.cpp:155-157 | D becomes the reweighted copy divided by z, which is a distribution |
| AdaBoostTrainer.BoostRound | adaboost.cpp:105-157 | a stopping round leaves D and alpha untouched and the specification round says Stopped. Otherwise the new D and alpha are exactly the specification round's result |
| AdaBoostTrainer.InitBoosters | adaboost.cpp:96-98 | fresh, distinct D and alpha vectors of N slots form the start state: D is 1/N everywhere (lines 96-98) and alpha is all zero, as the resize at lines 65-66 leaves it |
| AdaBoostTrainer.AdaBoost | adaboost.cpp:49-162 | the returned coefficients are those of the state after numIterations rounds, or of the round that stopped early |
| StrongClassifiers.StrongClassifier.Analyze | adaboost.cpp:189-202 | the answer is a label, and it is +1 exactly when the weighted vote of the collection is at least zero |
| StrongClassifiers.ZeroWeightsVoteZero | adaboost.cpp:189-202 | with all coefficients zero the vote is zero, so every feature is classified +1 |
| StrongClassifiers.AgreeingVoteLeans | adaboost.cpp:189-202 | with non-negative coefficients, if every positively weighted classifier answers y then the vote leans towards y, strictly once some coefficient is positive |
| StrongClassifiers.UnanimousVote | adaboost.cpp:189-202 | under the same conditions, with some coefficient positive, the strong classifier answers y |
| StrongClassifiers.SinglePositiveCoefficient | adaboost.cpp:189-202 | with a single positive coefficient, the strong classifier answers as that classifier does |
| StrongClassifiers.OneRoundFollowsBest | adaboost.cpp:134-139 | after one completed round from the start, the strong classifier over the returned coefficients answers as the selected weak classifier, on every feature |

## Left out

- `main`, `rdtsc` and the CSV input (adaboost.cpp:273-344) are left out: they are file I/O and cycle-count timing. The driver's pool and labels are not modelled.
- `StrongClassifier::performance` (adaboost.cpp:204-207) is an empty body with no behaviour.
- Floating-point rounding is not modelled, and neither is the real behaviour of `exp` and `log`.
  - Weights are `real`.
  - `exp` is any function the caller passes, assumed strictly positive.
  - `alphaOf` stands for `log((1 - e)/e)/2`. At an error of exactly 0 the source computes an infinite coefficient, which a real cannot express.
  - With a positive exponential, z is never 0, so the division by zero of line 157 cannot occur in the model.
- The template parameter T is fixed to `int`, the only instantiation in the repository.
- `boost::ptr_vector` and `boost::numeric::ublas::matrix` are library containers. They are modelled as `seq` (the pool and the data) and as `array2` (the matrix).
- `StrongClassifier` keeps the labels as a field that nothing reads, as in the source. The model stores a copy of the labels, not a reference to them.
- `StrongClassifier` holds values, not references. The source holds the coefficients and the labels by reference and the pool by pointer (lines 173-176). It also fixes the classifier count at construction (line 183). The model holds values and reads the pool's size at each call. The two differ only if a caller mutates the coefficients or the pool after construction. No caller in the repository does, so aliasing and later mutation are not modelled.
- AdaBoostTrainer.AdaBoost requires at least one label, `|labels| <= |data|`, and no more classifiers than labels. Reasons:
  - The source sizes alpha by the number of examples (line 66) but indexes it by classifier slot (line 138). With a larger pool, a round writes past the end of alpha whenever it selects a slot at or beyond N. `StrongClassifier::analyze` then also reads the coefficients past their end (lines 192-196).
  - The source also reads `data[j]` for every label index j.
  - With no labels, min_error starts at 0 (line 107) and the round never stops at line 134. The first round then computes (1 - 0)/0 (line 139) and writes alpha[0] of an empty vector (line 138).
  - The requirement also excludes the call with no labels and zero rounds. That call is harmless in the source and returns an empty vector; the model does not cover it.
  - The source checks none of these; they are the conditions under which it is defined.
- The source never resizes alpha to the pool size and never rejects bad inputs. The model follows the code: alpha keeps one slot per example, and the slots beyond the pool stay zero (`SlotsBeyondPoolStayZero`).
- StrongClassifiers.StrongClassifier.Analyze requires at least as many coefficients as classifiers, because the source reads the coefficient of every classifier slot without a check.
- AdaBoostTrainer.Total accumulates z in its own pass over the reweighted copy. The source adds each weight to z in the multiplying loop itself. The value is the same sum in the same order.
- AdaBoostTrainer.Reweight writes each product into a fresh array. The source copies D and then multiplies in place. The resulting vector is the same.
