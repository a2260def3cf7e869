/**
  The stacking combiner (`OneRulerForAll`): a pool of trained classifiers
  whose hard predictions become the features of a second-stage "ruler"
  classifier.  The pool is built and trained on the first `fit` only; the
  ruler is retrained on the pool's predictions on every `fit`; predictions
  are the ruler's, applied to the pool's predictions, behind a guard that
  the pool exists and is fitted.
 */
module Stacking {
  import opened Common
  import opened EstimatorPools
  import opened PoolLifecycle

  /** The data a ruler was last fitted on: pool votes and the true labels. */
  datatype TrainingSet = TrainingSet(X: VoteMatrix, y: Labels)

  /** The foreign side of a ruler: what it predicts once fitted on a training set. */
  datatype RulerBehaviour = RulerBehaviour(
    predict: (TrainingSet, VoteMatrix) -> Labels,
    predictProba: (TrainingSet, VoteMatrix) -> ProbaMatrix)

  /**
    The second-stage classifier, an object supplied by the caller and
    trained in place by `fit`.
   */
  class Ruler {
    const behaviour: RulerBehaviour
    var trainedOn: Option<TrainingSet>

    constructor(behaviour: RulerBehaviour)
      ensures this.behaviour == behaviour && trainedOn == None
    {
      this.behaviour := behaviour;
      trainedOn := None;
    }

    /** `ruler.fit(X, y)`: forgets any earlier training. */
    method Fit(X: VoteMatrix, y: Labels)
      modifies this
      ensures trainedOn == Some(TrainingSet(X, y))
    {
      trainedOn := Some(TrainingSet(X, y));
    }

    /** `ruler.predict(X)`, raising `NotFittedError` before any `fit`. */
    function Predict(X: VoteMatrix): (r: Result<Labels>)
      reads this
      ensures r.Ok? <==> trainedOn.Some?
      ensures r.Ok? ==> r.value == behaviour.predict(trainedOn.value, X)
    {
      match trainedOn
      case None => Err(NotFittedError("This ruler instance is not fitted yet"))
      case Some(t) => Ok(behaviour.predict(t, X))
    }

    /** `ruler.predict_proba(X)`, raising `NotFittedError` before any `fit`. */
    function PredictProba(X: VoteMatrix): (r: Result<ProbaMatrix>)
      reads this
      ensures r.Ok? <==> trainedOn.Some?
      ensures r.Ok? ==> r.value == behaviour.predictProba(trainedOn.value, X)
    {
      match trainedOn
      case None => Err(NotFittedError("This ruler instance is not fitted yet"))
      case Some(t) => Ok(behaviour.predictProba(t, X))
    }
  }

  const NotFittedMessage := "Please fit the model before"

  class OneRulerForAll {
    const support: Support
    const pools: PoolBehaviour
    const ruler: Ruler
    const comprehensiveSearch: bool
    const parameterTuning: bool
    const metrics: string
    const nSplits: int
    var estimatorPool: Option<Pool>

    /** Once a pool exists it is fitted. */
    ghost predicate Valid()
      reads this
    {
      estimatorPool.Some? ==> estimatorPool.value.IsFitted()
    }

    /** The guard of `predict` and `predict_proba`: the pool exists and is fitted. */
    predicate PoolReady()
      reads this
    {
      estimatorPool.Some? && estimatorPool.value.IsFitted()
    }

    constructor(support: Support, pools: PoolBehaviour, ruler: Ruler, comprehensiveSearch: bool := true,
                parameterTuning: bool := true, metrics: string := "accuracy", nSplits: int := 10)
      ensures this.support == support && this.pools == pools && this.ruler == ruler
      ensures this.comprehensiveSearch == comprehensiveSearch && this.parameterTuning == parameterTuning
      ensures this.metrics == metrics && this.nSplits == nSplits
      ensures estimatorPool == None
      ensures Valid()
    {
      this.support := support;
      this.pools := pools;
      this.ruler := ruler;
      this.comprehensiveSearch := comprehensiveSearch;
      this.parameterTuning := parameterTuning;
      this.metrics := metrics;
      this.nSplits := nSplits;
      estimatorPool := None;
    }

    /**
      `fit(X, y)`: the class-balance guard, then the pool is built and
      trained only if none exists, then the ruler is refitted on the pool's
      predictions for `X` against `y`, whether or not the pool was new.
     */
    method Fit(X: Table, y: Labels) returns (r: Result<OneRulerForAll>)
      modifies this, ruler
      ensures !support.classBalanceOk(y) ==>
                r == Err(ClassImbalanceError) &&
                estimatorPool == old(estimatorPool) && ruler.trainedOn == old(ruler.trainedOn)
      ensures support.classBalanceOk(y) ==>
                var pool := TrainedPool(old(estimatorPool), comprehensiveSearch, parameterTuning,
                                        metrics, pools, support.adaptedCrossVal(X, nSplits), X, y);
                estimatorPool == Some(pool) &&
                (pool.IsFitted() ==>
                   r == Ok(this) && ruler.trainedOn == Some(TrainingSet(pools.votes(pool, X), y))) &&
                (!pool.IsFitted() ==>
                   r.Err? && r.error.NotFittedError? && ruler.trainedOn == old(ruler.trainedOn))
      ensures old(Valid()) ==> Valid()
      ensures old(Valid()) && support.classBalanceOk(y) ==> PoolReady() && r == Ok(this)
    {
      if !support.classBalanceOk(y) {
        return Err(ClassImbalanceError);
      }
      var cv := support.adaptedCrossVal(X, nSplits);
      if estimatorPool.None? {
        var pool := NewPool(VariantFor(comprehensiveSearch), pools);
        estimatorPool := Some(pool);
        if parameterTuning {
          estimatorPool := Some(FitWithParameterTuning(pool, X, y, cv, metrics));
        } else {
          estimatorPool := Some(EstimatorPools.Fit(pool, X, y));
        }
      }
      var outputs := EstimatorPools.Predict(estimatorPool.value, pools, X);
      if outputs.Err? {
        return Err(outputs.error);
      }
      ruler.Fit(outputs.value, y);
      r := Ok(this);
    }

    /** `predict(X)`: the ruler's prediction on the pool's votes for `X`. */
    function Predict(X: Table): (r: Result<Labels>)
      reads this, ruler
      ensures !PoolReady() ==> r == Err(AssertionError(NotFittedMessage))
      ensures PoolReady() ==> r == ruler.Predict(pools.votes(estimatorPool.value, X))
    {
      if !PoolReady() then Err(AssertionError(NotFittedMessage))
      else
        // the guard makes the pool's own fitted check pass
        var outputs := EstimatorPools.Predict(estimatorPool.value, pools, X);
        ruler.Predict(outputs.value)
    }

    /** `predict_proba(X)`: the ruler's probabilities on the pool's votes (not the pool's probabilities). */
    function PredictProba(X: Table): (r: Result<ProbaMatrix>)
      reads this, ruler
      ensures !PoolReady() ==> r == Err(AssertionError(NotFittedMessage))
      ensures PoolReady() ==> r == ruler.PredictProba(pools.votes(estimatorPool.value, X))
    {
      if !PoolReady() then Err(AssertionError(NotFittedMessage))
      else
        // the guard makes the pool's own fitted check pass
        var outputs := EstimatorPools.Predict(estimatorPool.value, pools, X);
        ruler.PredictProba(outputs.value)
    }

    /** `transform(X)` passes its input through. */
    function Transform(X: Table): (r: Table)
      ensures r == X
    {
      X
    }

    /** `__repr__`. */
    function ToString(): (s: string)
      ensures s == "ORFA"
    {
      "ORFA"
    }
  }

  /**
    Stacking end to end: after a successful `fit(X, y)`, `predict(query)`
    is what the ruler, trained on the pool's votes for `X` against `y`,
    predicts from the pool's votes for `query`; the combiner never alters
    the ruler's decision.
   */
  method FitThenPredict(m: OneRulerForAll, X: Table, y: Labels, query: Table) returns (r: Result<Labels>)
    requires m.Valid() && m.support.classBalanceOk(y)
    modifies m, m.ruler
    ensures m.PoolReady()
    ensures m.ruler.trainedOn == Some(TrainingSet(m.pools.votes(m.estimatorPool.value, X), y))
    ensures r == m.Predict(query)
    ensures var pool := m.estimatorPool.value;
            r == Ok(m.ruler.behaviour.predict(TrainingSet(m.pools.votes(pool, X), y), m.pools.votes(pool, query)))
  {
    var fitted := m.Fit(X, y);
    r := m.Predict(query);
  }

  /**
    A later `fit` keeps the pool but retrains the ruler: after a second
    successful `fit(X2, y2)` the pool is the one the first `fit` built, and
    the ruler has been trained on that pool's votes for `X2` against `y2`.
   */
  method RefitRetrainsRulerOnly(m: OneRulerForAll, X1: Table, y1: Labels, X2: Table, y2: Labels)
    returns (first: Option<Pool>, second: Option<Pool>)
    requires m.Valid() && m.support.classBalanceOk(y1) && m.support.classBalanceOk(y2)
    modifies m, m.ruler
    ensures first == Some(TrainedPool(old(m.estimatorPool), m.comprehensiveSearch, m.parameterTuning, m.metrics,
                                      m.pools, m.support.adaptedCrossVal(X1, m.nSplits), X1, y1))
    ensures first == second && second == m.estimatorPool && m.PoolReady()
    ensures m.ruler.trainedOn == Some(TrainingSet(m.pools.votes(m.estimatorPool.value, X2), y2))
  {
    var ignored := m.Fit(X1, y1);
    first := m.estimatorPool;
    ignored := m.Fit(X2, y2);
    second := m.estimatorPool;
  }
}
