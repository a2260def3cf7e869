/**
  The part of `fit` that both meta-models share: the pool is built and
  trained only while none exists, as the configured variant and by the
  configured training path; once it exists every later `fit` reuses it.
 */
module PoolLifecycle {
  import opened Common
  import opened EstimatorPools

  /** `EstimatorPoolCV` when `comprehensiveSearch`, otherwise `EstimatorPool`. */
  function VariantFor(comprehensiveSearch: bool): (k: PoolKind)
    ensures k == EstimatorPoolCV <==> comprehensiveSearch
  {
    if comprehensiveSearch then EstimatorPoolCV else EstimatorPool
  }

  /**
    The pool a `fit(X, y)` call leaves behind, given the pool it found
    (`None` before the first successful fit) and the cross-validation
    splitter it computed.
   */
  function TrainedPool(current: Option<Pool>, comprehensiveSearch: bool, parameterTuning: bool,
                       metrics: string, behaviour: PoolBehaviour, cv: CrossVal,
                       X: Table, y: Labels): (p: Pool)
    ensures current.Some? ==> p == current.value
    ensures current.None? ==> p.IsFitted()
    ensures current.None? ==> (p.kind == EstimatorPoolCV <==> comprehensiveSearch)
    ensures current.None? ==> p.size == behaviour.size(p.kind)
    ensures current.None? ==> (p.training.Tuned? <==> parameterTuning)
    ensures current.None? ==> p.training.X == X && p.training.y == y
    ensures current.None? && parameterTuning ==> p.training.cv == cv && p.training.metrics == metrics
  {
    match current
    case Some(pool) => pool
    case None =>
      var created := NewPool(VariantFor(comprehensiveSearch), behaviour);
      if parameterTuning then FitWithParameterTuning(created, X, y, cv, metrics)
      else EstimatorPools.Fit(created, X, y)
  }

  /** A second `fit` leaves the pool of the first one untouched, whatever data it is given. */
  lemma FitOnce(current: Option<Pool>, comprehensiveSearch: bool, parameterTuning: bool,
                metrics: string, behaviour: PoolBehaviour,
                cv1: CrossVal, X1: Table, y1: Labels, cv2: CrossVal, X2: Table, y2: Labels)
    ensures var first := TrainedPool(current, comprehensiveSearch, parameterTuning, metrics, behaviour, cv1, X1, y1);
            TrainedPool(Some(first), comprehensiveSearch, parameterTuning, metrics, behaviour, cv2, X2, y2) == first
  {
  }
}
