# TinyAutoML meta-models in Dafny

This project models the two "meta-models" of TinyAutoML that turn a pool of
trained base classifiers into one decision:

- `DemocraticModel` (the vote combiner). `fit` guards class balance, builds
  and trains an estimator pool only while none exists (`EstimatorPoolCV` when
  `comprehensiveSearch`, trained by parameter tuning when `parameterTuning`),
  and re-reads `nEstimator` from the pool each time. `predict_proportion`
  returns `[1 - p, p]`, where `p` is the sum of the pool's votes on the first
  sample divided by `nEstimator`. `predict_proba` returns the element-wise
  mean of the pool's per-model probability matrices. `predict` takes numpy's
  `argmax` of one or the other. The `voting` string gates the two methods:
  `predict_proba` is refused when `voting == "hard"`, `predict_proportion`
  when `voting == "soft"`, and any other string allows both. The gate runs
  when the method is looked up, so before the method's own fitted check.
- `OneRulerForAll` (the stacking combiner). `fit` guards class balance,
  builds and trains the pool on the first call only, and refits the "ruler"
  on the pool's predictions on every call. `predict` and `predict_proba`
  assert that the pool exists and is fitted, then return the ruler's
  `predict` / `predict_proba` applied to the pool's hard predictions.

The pool and the ruler are abstract collaborators:

- A pool (`EstimatorPools.Pool`) is its variant, its length, and a record of
  how it was trained. What a trained pool predicts comes from
  `EstimatorPools.PoolBehaviour`: a vote matrix (samples × models) and one
  probability matrix per model.
- The ruler is a class (`Stacking.Ruler`) trained in place. Its predictions
  are given by `Stacking.RulerBehaviour`.
- The support library's `checkClassBalance` and `getAdaptedCrossVal` are the
  functions of `Common.Support`.

Numbers that are floats in Python are exact Dafny `real`s here, so "rows sum
to 1" is proved exactly.

Files: `common.dfy` (types, errors, support helpers), `estimator_pools.dfy`
(the pool interface), `vote_arithmetic.dfy` (sum, proportion, argmax, mean),
`pool_lifecycle.dfy` (the build-once pool step shared by both `fit`s),
`democratic_model.dfy`, `one_ruler_for_all.dfy`.

### Behaviour worth noting

- The mode gate is not a two-valued mode. `predict_proba` is refused only
  for `"hard"` and `predict_proportion` only for `"soft"`, so any other string
  enables both. `predict` takes the soft path for every string except
  `"hard"`.
- Predicting before `fit` raises `ValueError("You must fit the estimator")`
  in the vote combiner and an `AssertionError` in the stacking combiner, not a
  dedicated not-fitted error.
- The hard proportion uses only the first sample (`iloc[0, :]`), and hard
  `predict` returns one index, not one index per sample.

## Model

| member | source | states |
|---|---|---|
| `VoteArithmetic.SumOfBinaryVotes` | TinyAutoML/Models/MetaModels/DemocraticModel.py:139 | over 0/1 votes the row sum equals the number of 1-votes (the multiset count of 1) and lies between 0 and the row length |
| `VoteArithmetic.Proportion` | TinyAutoML/Models/MetaModels/DemocraticModel.py:139-140 | the proportion has two entries and they sum to exactly 1 |
| `VoteArithmetic.ProportionOfPositiveVotes` | TinyAutoML/Models/MetaModels/DemocraticModel.py:139-140 | with k of n binary votes equal to 1 the result is `[1 - k/n, k/n]`, each entry in [0, 1] |
| `VoteArithmetic.ArgMax` | TinyAutoML/Models/MetaModels/DemocraticModel.py:124 | the index is in range, its entry is >= every entry, and every earlier entry is strictly smaller (the first maximum) |
| `VoteArithmetic.HardDecision` | TinyAutoML/Models/MetaModels/DemocraticModel.py:123-124 | argmax of `[1 - p, p]` is 1 iff `p > 1/2`; at `p = 1/2` it is 0 |
| `VoteArithmetic.ArgMaxRows` | TinyAutoML/Models/MetaModels/DemocraticModel.py:126 | succeeds iff no row is empty (else ValueError); then one first-maximum index per row |
| `VoteArithmetic.Total` | TinyAutoML/Models/MetaModels/DemocraticModel.py:152 | the element-wise sum of same-shaped matrices has the same shape |
| `VoteArithmetic.MeanAt` | TinyAutoML/Models/MetaModels/DemocraticModel.py:152 | each entry of the mean is the sum of that entry over the models divided by the number of models |
| `VoteArithmetic.MeanIsRowStochastic` | TinyAutoML/Models/MetaModels/DemocraticModel.py:151-152 | the mean of row-stochastic matrices is row-stochastic |
| `VoteArithmetic.MeanOverModels` | TinyAutoML/Models/MetaModels/DemocraticModel.py:152 | succeeds iff the matrices share one shape (ragged input is a ValueError); the result has that shape and each entry is the per-model average |
| `VoteArithmetic.TwoOfThreeVotes` | TinyAutoML/Models/MetaModels/DemocraticModel.py:123-140 | two positive votes out of three give `[1/3, 2/3]` and decision 1 |
| `VoteArithmetic.ThreeProbabilityVectors` | TinyAutoML/Models/MetaModels/DemocraticModel.py:125-152 | `[0.2, 0.8]`, `[0.6, 0.4]`, `[0.3, 0.7]` average to exactly `[11/30, 19/30]` and decision 1 |
| `PoolLifecycle.VariantFor` | TinyAutoML/Models/MetaModels/DemocraticModel.py:105-107 | the variant is `EstimatorPoolCV` iff `comprehensiveSearch` |
| `PoolLifecycle.TrainedPool` | TinyAutoML/Models/MetaModels/DemocraticModel.py:104-112 | an existing pool is kept unchanged; otherwise a new pool of the configured variant and length, fitted, trained by tuning iff `parameterTuning`, on `(X, y)` (and on `cv`, `metrics` when tuned) |
| `PoolLifecycle.FitOnce` | TinyAutoML/Models/MetaModels/OneRulerForAll.py:47-55 | a second fit, on any data, leaves the pool built by the first |
| `DemocraticModels.CheckSoftVoting` | TinyAutoML/Models/MetaModels/DemocraticModel.py:84-89 | the gate raises iff `voting == "hard"`, with an AttributeError naming `predict_proba` |
| `DemocraticModels.CheckHardVotingAsWritten` | TinyAutoML/Models/MetaModels/DemocraticModel.py:91-96 | the gate as written raises iff `voting == "soft"`, with an AttributeError |
| `DemocraticModels.HardVotingGateNamesWrongMethod` | TinyAutoML/Models/MetaModels/DemocraticModel.py:93-95 | with `voting="soft"` the as-written message is "predict_proba is not available when voting=soft", which does not name `predict_proportion` |
| `DemocraticModels.CheckHardVoting` | TinyAutoML/Models/MetaModels/DemocraticModel.py:91-96 | the corrected gate raises iff `voting == "soft"`, with an AttributeError naming `predict_proportion` |
| `DemocraticModels.DemocraticModel.constructor` | TinyAutoML/Models/MetaModels/DemocraticModel.py:68-82 | stores the configuration (with the source's defaults) and starts without a pool |
| `DemocraticModels.DemocraticModel.Fit` | TinyAutoML/Models/MetaModels/DemocraticModel.py:98-116 | an imbalanced `y` raises and changes nothing; otherwise the pool becomes `TrainedPool` of the old one, `nEstimator` its length, the result is the model itself, and the invariant "a pool is fitted and `nEstimator` is its length" is kept |
| `DemocraticModels.DemocraticModel.PredictProportion` | TinyAutoML/Models/MetaModels/DemocraticModel.py:129-140 | AttributeError iff `voting == "soft"`; otherwise ValueError before any fit, NotFittedError from an untrained pool, and with a fitted pool: IndexError when there is no sample, ZeroDivisionError when `nEstimator` is 0, else exactly `[1 - p, p]` with `p` the first sample's vote sum divided by `nEstimator`; a success has two entries summing to 1 |
| `DemocraticModels.DemocraticModel.PredictProba` | TinyAutoML/Models/MetaModels/DemocraticModel.py:142-152 | AttributeError iff `voting == "hard"`; otherwise ValueError before any fit; with a fitted pool it is the mean over the pool's per-model matrices |
| `DemocraticModels.DemocraticModel.Predict` | TinyAutoML/Models/MetaModels/DemocraticModel.py:119-127 | hard mode: fails exactly when `predict_proportion` fails, else class 1 iff its second entry exceeds 1/2; other modes: `predict_proba`'s error; when `predict_proba` succeeds, success exactly when no row is empty (else numpy's ValueError), and then per row the first index of the row's maximum |
| `DemocraticModels.DemocraticModel.Transform` | TinyAutoML/Models/MetaModels/DemocraticModel.py:154-155 | the identity |
| `DemocraticModels.DemocraticModel.ToString` | TinyAutoML/Models/MetaModels/DemocraticModel.py:157-158 | the constant "Democratic Model" |
| `DemocraticModels.HardProportionCountsVotes` | TinyAutoML/Models/MetaModels/DemocraticModel.py:137-140 | with one 0/1 vote per model on the first sample, k of them 1, `predict_proportion` is `[1 - k/N, k/N]` for N models, both in [0, 1] |
| `DemocraticModels.HardPredictIsStrictMajority` | TinyAutoML/Models/MetaModels/DemocraticModel.py:123-124 | under the same assumptions hard `predict` is class 1 iff `2k > N` (a tie gives 0) |
| `DemocraticModels.SoftProbaIsRowStochastic` | TinyAutoML/Models/MetaModels/DemocraticModel.py:149-152 | when the pool's matrices share a shape and are row-stochastic, `predict_proba` succeeds and is row-stochastic |
| `DemocraticModels.TwoOfThreeModelsPredictOne` | TinyAutoML/Models/MetaModels/DemocraticModel.py:119-140 | a three-model pool with votes `[1, 1, 0]` on the first sample makes hard `predict` return class 1 |
| `DemocraticModels.ThreeModelsSoftPredictOne` | TinyAutoML/Models/MetaModels/DemocraticModel.py:119-152 | per-model probabilities `[0.2, 0.8]`, `[0.6, 0.4]`, `[0.3, 0.7]` make `predict_proba` return `[[11/30, 19/30]]` and `predict` return `[1]` |
| `DemocraticModels.RefitKeepsPredictions` | TinyAutoML/Models/MetaModels/DemocraticModel.py:104-114 | `before` is `predict(query)` before a `fit` and `after` is `predict(query)` after it; on a model that has a pool they are equal |
| `Stacking.OneRulerForAll.constructor` | TinyAutoML/Models/MetaModels/OneRulerForAll.py:23-37 | stores the ruler and the configuration and starts without a pool |
| `Stacking.OneRulerForAll.Fit` | TinyAutoML/Models/MetaModels/OneRulerForAll.py:39-61 | an imbalanced `y` raises before any pool or ruler work; otherwise the pool becomes `TrainedPool` of the old one and the ruler is refitted on that pool's votes for `X` against `y`, even when the pool was kept; returns the model itself |
| `Stacking.OneRulerForAll.Predict` | TinyAutoML/Models/MetaModels/OneRulerForAll.py:64-70 | AssertionError unless the pool exists and is fitted; otherwise exactly the ruler's `predict` of the pool's votes |
| `Stacking.OneRulerForAll.PredictProba` | TinyAutoML/Models/MetaModels/OneRulerForAll.py:72-79 | AssertionError unless the pool exists and is fitted; otherwise exactly the ruler's `predict_proba` of the pool's votes, not of the pool's probabilities |
| `Stacking.OneRulerForAll.Transform` | TinyAutoML/Models/MetaModels/OneRulerForAll.py:81-82 | the identity |
| `Stacking.OneRulerForAll.ToString` | TinyAutoML/Models/MetaModels/OneRulerForAll.py:84-85 | the constant "ORFA" |
| `Stacking.FitThenPredict` | TinyAutoML/Models/MetaModels/OneRulerForAll.py:57-70 | after a successful `fit(X, y)` the ruler is trained on the pool's votes for `X` against `y`, and the result is `predict(q)`, which equals that ruler's prediction on the pool's votes for `q` |
| `Stacking.RefitRetrainsRulerOnly` | TinyAutoML/Models/MetaModels/OneRulerForAll.py:47-59 | the first fit's pool is `TrainedPool` of the pool before it on `(X1, y1)`; the second fit keeps it, and the ruler is trained on that pool's votes for `(X2, y2)` |

## Findings

| source | as written | input that shows it | evidently intended | confidence | as-written member | corrected member |
|---|---|---|---|---|---|---|
| TinyAutoML/Models/MetaModels/DemocraticModel.py:91-96 | the gate of `predict_proportion` raises "predict_proba is not available when voting=soft" | `voting="soft"`, any call of `predict_proportion` | a message naming `predict_proportion` | not executed; the message text is plain in the code | `DemocraticModels.HardVotingGateNamesWrongMethod` | `DemocraticModels.CheckHardVoting` |

## Left out

- `checkClassBalance` and `getAdaptedCrossVal` come from the support library, which is not part of this model. They are the functions `classBalanceOk` and `adaptedCrossVal` of `Common.Support`: a check that passes or raises, and an opaque split.
- Pool internals (`EstimatorPool`, `EstimatorPoolCV`, `fit`, `fitWithParameterTuning`, the learners, the search spaces) are foreign. A pool's length and predictions are the functions of `EstimatorPools.PoolBehaviour`, applied to the pool's training record.
- In Python the pool is trained in place. It is created inside `fit` and never shared, so here training replaces the pool value held in `estimatorPool`.
- The ruler's learning algorithm (a scikit-learn `RandomForestClassifier` by default) is foreign: `Stacking.RulerBehaviour`.
- The shared mutable default ruler is not modelled. The ruler is a required constructor argument, and aliasing of one ruler between several combiners is left out.
- The descriptor protocol of `available_if` (`_AvailableIfDescriptor`) is reduced to its observable effect: the gate runs before the method body. The class-level path for unbound methods and `hasattr` behaviour are left out.
- Exceptions from foreign code inside `fit` are left out. A training step that raised would leave a non-`None`, untrained pool, because `estimatorPool` is assigned before training.
- IEEE floating point: all probabilities and proportions are exact reals. In Python "rows sum to 1" holds only within rounding.
- Logging, the process-wide pandas option and the pandas/numpy container types are left out; tables are sequences.
- The `MetaModel` base class and support/SupportClasses/OneRulerForAll.py (an older wrapper built on scikit-learn's randomized search) are not part of this model.
- Before the first `fit`, Python has no `nEstimator` attribute at all. The model holds 0, and nothing reads it while there is no pool.
- `VoteArithmetic.MeanOverModels`: an empty list of per-model matrices gives `EmptyMean` here. numpy returns NaN with a warning instead.
- `DemocraticModels.DemocraticModel.PredictProportion`: the AttributeError message follows the corrected gate (see Findings), not the source's text.
- `DemocraticModels.HardProportionCountsVotes`, `DemocraticModels.HardPredictIsStrictMajority`: binary labels with 0/1 votes and one vote per model are hypotheses of these lemmas. They are assumed, not derived from the pool. Multiclass hard voting is not modelled, because the source only defines the binary case.
- `DemocraticModels.SoftProbaIsRowStochastic`: that each model's probability rows sum to 1 and that all matrices share a shape are hypotheses about the pool.
- Training randomness is not modelled: the pool's randomized hyper-parameter search and the default ruler's unseeded `RandomForestClassifier()`. `PoolBehaviour` and `RulerBehaviour` make a trained pool or ruler a deterministic function of its training data.
- `Stacking.OneRulerForAll.Predict`, `Stacking.OneRulerForAll.PredictProba`: the fitted guard is a Python `assert` (OneRulerForAll.py:65-67, 75-77), which `python -O` removes; there an unfitted model would fail with an AttributeError on `None` instead. The model keeps the assertion as an `AssertionError`.
