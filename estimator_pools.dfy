/**
  The estimator pool as the meta-models see it.  The pool's learners, its
  search spaces and its training code are foreign; what the meta-models
  rely on is its variant, its length, whether it has been fitted and how,
  and two deterministic prediction functions of its trained state.
 */
module EstimatorPools {
  import opened Common

  /** The two pool classes a meta-model can build. */
  datatype PoolKind = EstimatorPool | EstimatorPoolCV

  /** How a pool was trained, with the data it was trained on. */
  datatype Training =
    | Untrained
    | Fitted(X: Table, y: Labels)
    | Tuned(X: Table, y: Labels, cv: CrossVal, metrics: string)

  /** A pool: its variant, its number of slots (`len(pool)`) and its training. */
  datatype Pool = Pool(kind: PoolKind, size: nat, training: Training) {
    /** The pool's `is_fitted` flag. */
    predicate IsFitted() {
      !training.Untrained?
    }
  }

  /**
    The foreign side of a pool: how many slots each variant has, and what a
    pool in a given trained state predicts for a feature table (one vote
    per model per sample, and one probability matrix per model).
   */
  datatype PoolBehaviour = PoolBehaviour(
    size: PoolKind -> nat,
    votes: (Pool, Table) -> VoteMatrix,
    probas: (Pool, Table) -> seq<ProbaMatrix>)

  /** `EstimatorPool()` or `EstimatorPoolCV()`: a fresh, unfitted pool. */
  function NewPool(kind: PoolKind, behaviour: PoolBehaviour): (p: Pool)
    ensures p.kind == kind && p.size == behaviour.size(kind)
    ensures !p.IsFitted()
  {
    Pool(kind, behaviour.size(kind), Untrained)
  }

  /** `pool.fit(X, y)`. */
  function Fit(p: Pool, X: Table, y: Labels): (q: Pool)
    ensures q.kind == p.kind && q.size == p.size
    ensures q.IsFitted()
  {
    p.(training := Fitted(X, y))
  }

  /** `pool.fitWithParameterTuning(X, y, cv, metrics)`. */
  function FitWithParameterTuning(p: Pool, X: Table, y: Labels, cv: CrossVal, metrics: string): (q: Pool)
    ensures q.kind == p.kind && q.size == p.size
    ensures q.IsFitted()
  {
    p.(training := Tuned(X, y, cv, metrics))
  }

  /** `pool.predict(X)`: the vote matrix, or `NotFittedError` before training. */
  function Predict(p: Pool, behaviour: PoolBehaviour, X: Table): (r: Result<VoteMatrix>)
    ensures r.Ok? <==> p.IsFitted()
    ensures r.Err? ==> r.error.NotFittedError?
  {
    if p.IsFitted() then Ok(behaviour.votes(p, X))
    else Err(NotFittedError("This EstimatorPool instance is not fitted yet"))
  }

  /** `pool.predict_proba(X)`: the per-model probability matrices, or `NotFittedError`. */
  function PredictProba(p: Pool, behaviour: PoolBehaviour, X: Table): (r: Result<seq<ProbaMatrix>>)
    ensures r.Ok? <==> p.IsFitted()
    ensures r.Err? ==> r.error.NotFittedError?
  {
    if p.IsFitted() then Ok(behaviour.probas(p, X))
    else Err(NotFittedError("This EstimatorPool instance is not fitted yet"))
  }
}
