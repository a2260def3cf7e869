/**
  The vote combiner (`DemocraticModel`): a pool of trained classifiers
  whose outputs are combined by hard voting (the share of models voting
  for class 1 on the first sample) or soft voting (the element-wise mean
  of the models' probability matrices).  The `voting` string, fixed at
  construction, gates which of `predict_proportion` and `predict_proba`
  may be called; the gate runs before the method body, hence before the
  fitted check.
 */
module DemocraticModels {
  import opened Common
  import opened EstimatorPools
  import opened VoteArithmetic
  import opened PoolLifecycle

  /** What `predict` returns: one index in hard mode, one index per sample otherwise. */
  datatype Decision = ClassIndex(index: nat) | ClassIndices(indices: seq<nat>)

  /** The gate of `predict_proba`: it raises exactly when `voting == "hard"`. */
  function CheckSoftVoting(voting: string): (r: Outcome)
    ensures r.Fail? <==> voting == "hard"
    ensures r.Fail? ==> r.error.AttributeError? && "predict_proba" <= r.error.message
  {
    if voting == "hard" then Fail(AttributeError("predict_proba is not available when voting=" + voting))
    else Pass
  }

  /** The gate of `predict_proportion` as the source writes it: its message names the other method. */
  function CheckHardVotingAsWritten(voting: string): (r: Outcome)
    ensures r.Fail? <==> voting == "soft"
    ensures r.Fail? ==> r.error.AttributeError?
  {
    if voting == "soft" then Fail(AttributeError("predict_proba is not available when voting=" + voting))
    else Pass
  }

  /** With `voting="soft"` the as-written gate of `predict_proportion` blames `predict_proba`. */
  lemma HardVotingGateNamesWrongMethod()
    ensures CheckHardVotingAsWritten("soft").error.message == "predict_proba is not available when voting=soft"
    ensures !("predict_proportion" <= CheckHardVotingAsWritten("soft").error.message)
  {
    assert CheckHardVotingAsWritten("soft").error.message[11] == 'b';
  }

  /** The gate of `predict_proportion`, raising exactly when `voting == "soft"` and naming the method it guards. */
  function CheckHardVoting(voting: string): (r: Outcome)
    ensures r.Fail? <==> voting == "soft"
    ensures r.Fail? ==> r.error.AttributeError? && "predict_proportion" <= r.error.message
  {
    if voting == "soft" then Fail(AttributeError("predict_proportion is not available when voting=" + voting))
    else Pass
  }

  const NotFittedMessage := "You must fit the estimator"

  class DemocraticModel {
    const support: Support
    const pools: PoolBehaviour
    const comprehensiveSearch: bool
    const parameterTuning: bool
    const metrics: string
    const nSplits: int
    const voting: string
    var estimatorPool: Option<Pool>
    var nEstimator: nat

    /** Once a pool exists it is fitted and `nEstimator` is its length. */
    ghost predicate Valid()
      reads this
    {
      estimatorPool.Some? ==> estimatorPool.value.IsFitted() && nEstimator == estimatorPool.value.size
    }

    constructor(support: Support, pools: PoolBehaviour, comprehensiveSearch: bool := true,
                parameterTuning: bool := true, metrics: string := "accuracy", nSplits: int := 10,
                voting: string := "soft")
      ensures this.support == support && this.pools == pools
      ensures this.comprehensiveSearch == comprehensiveSearch && this.parameterTuning == parameterTuning
      ensures this.metrics == metrics && this.nSplits == nSplits && this.voting == voting
      ensures estimatorPool == None
      ensures Valid()
    {
      this.support := support;
      this.pools := pools;
      this.comprehensiveSearch := comprehensiveSearch;
      this.parameterTuning := parameterTuning;
      this.metrics := metrics;
      this.nSplits := nSplits;
      this.voting := voting;
      estimatorPool := None;
      nEstimator := 0;
    }

    /**
      `fit(X, y)`: the class-balance guard, then the pool is built and
      trained only if none exists, then `nEstimator` is re-read from the pool.
     */
    method Fit(X: Table, y: Labels) returns (r: Result<DemocraticModel>)
      modifies this
      ensures !support.classBalanceOk(y) ==>
                r == Err(ClassImbalanceError) &&
                estimatorPool == old(estimatorPool) && nEstimator == old(nEstimator)
      ensures support.classBalanceOk(y) ==>
                r == Ok(this) &&
                estimatorPool == Some(TrainedPool(old(estimatorPool), comprehensiveSearch, parameterTuning,
                                                  metrics, pools, support.adaptedCrossVal(X, nSplits), X, y)) &&
                nEstimator == estimatorPool.value.size
      ensures old(Valid()) ==> Valid()
      ensures support.classBalanceOk(y) && old(estimatorPool).None? ==> Valid()
    {
      if !support.classBalanceOk(y) {
        return Err(ClassImbalanceError);
      }
      var cv := support.adaptedCrossVal(X, nSplits);
      if estimatorPool.None? {
        var pool := NewPool(VariantFor(comprehensiveSearch), pools);
        estimatorPool := Some(pool);
        if parameterTuning {
          estimatorPool := Some(FitWithParameterTuning(pool, X, y, cv, metrics));
        } else {
          estimatorPool := Some(EstimatorPools.Fit(pool, X, y));
        }
      }
      nEstimator := estimatorPool.value.size;
      r := Ok(this);
    }

    /**
      `predict_proportion(X)`: `[1 - p, p]` with `p` the sum of the pool's
      votes on the first sample divided by `nEstimator`.
     */
    function PredictProportion(X: Table): (r: Result<seq<real>>)
      reads this
      ensures (r.Err? && r.error.AttributeError?) <==> voting == "soft"
      ensures voting != "soft" && estimatorPool.None? ==> r == Err(ValueError(NotFittedMessage))
      ensures r.Ok? ==> estimatorPool.Some? && nEstimator != 0
      ensures r.Ok? ==> |r.value| == 2 && r.value[0] + r.value[1] == 1.0
      ensures voting != "soft" && estimatorPool.Some? && !estimatorPool.value.IsFitted() ==>
                r.Err? && r.error.NotFittedError?
      ensures voting != "soft" && estimatorPool.Some? && estimatorPool.value.IsFitted() ==>
                r == (var votes := pools.votes(estimatorPool.value, X);
                      if |votes| == 0 then Err(IndexError("single positional indexer is out-of-bounds"))
                      else if nEstimator == 0 then Err(ZeroDivisionError)
                      else Ok(Proportion(votes[0], nEstimator)))
    {
      match CheckHardVoting(voting)
      case Fail(e) => Err(e)
      case Pass =>
        if estimatorPool.None? then Err(ValueError(NotFittedMessage))
        else
          match EstimatorPools.Predict(estimatorPool.value, pools, X)
          case Err(e) => Err(e)
          case Ok(outputs) =>
            if |outputs| == 0 then Err(IndexError("single positional indexer is out-of-bounds"))
            else if nEstimator == 0 then Err(ZeroDivisionError)
            else Ok(Proportion(outputs[0], nEstimator))
    }

    /** `predict_proba(X)`: the element-wise mean of the pool's per-model probability matrices. */
    function PredictProba(X: Table): (r: Result<ProbaMatrix>)
      reads this
      ensures (r.Err? && r.error.AttributeError?) <==> voting == "hard"
      ensures voting != "hard" && estimatorPool.None? ==> r == Err(ValueError(NotFittedMessage))
      ensures voting != "hard" && estimatorPool.Some? && estimatorPool.value.IsFitted() ==>
                r == MeanOverModels(pools.probas(estimatorPool.value, X))
    {
      match CheckSoftVoting(voting)
      case Fail(e) => Err(e)
      case Pass =>
        if estimatorPool.None? then Err(ValueError(NotFittedMessage))
        else
          match EstimatorPools.PredictProba(estimatorPool.value, pools, X)
          case Err(e) => Err(e)
          case Ok(probas) => MeanOverModels(probas)
    }

    /**
      `predict(X)`: in hard mode the index of the larger proportion (class 1
      only when it is strictly larger), otherwise the first index of the
      maximum of each row of `predict_proba`.
     */
    function Predict(X: Table): (r: Result<Decision>)
      reads this
      ensures voting == "hard" ==> (r.Ok? <==> PredictProportion(X).Ok?)
      ensures voting == "hard" && PredictProportion(X).Err? ==> r == Err(PredictProportion(X).error)
      ensures voting == "hard" && r.Ok? ==>
                r.value == ClassIndex(if PredictProportion(X).value[1] > 0.5 then 1 else 0)
      ensures voting != "hard" && PredictProba(X).Err? ==> r == Err(PredictProba(X).error)
      ensures voting != "hard" && PredictProba(X).Ok? ==>
                (r.Ok? <==> forall i | 0 <= i < |PredictProba(X).value| :: |PredictProba(X).value[i]| > 0)
      ensures voting != "hard" && PredictProba(X).Ok? && r.Err? ==> r.error.ValueError?
      ensures voting != "hard" && r.Ok? ==>
                PredictProba(X).Ok? && r.value.ClassIndices? &&
                |r.value.indices| == |PredictProba(X).value| &&
                forall i | 0 <= i < |PredictProba(X).value| :: IsFirstMax(PredictProba(X).value[i], r.value.indices[i])
    {
      if voting == "hard" then
        match PredictProportion(X)
        case Err(e) => Err(e)
        case Ok(p) =>
          assert p == [1.0 - p[1], p[1]];
          HardDecision(p[1]);
          Ok(ClassIndex(ArgMax(p)))
      else
        match PredictProba(X)
        case Err(e) => Err(e)
        case Ok(m) =>
          match ArgMaxRows(m)
          case Err(e) => Err(e)
          case Ok(indices) => Ok(ClassIndices(indices))
    }

    /** `transform(X)` passes its input through. */
    function Transform(X: Table): (r: Table)
      ensures r == X
    {
      X
    }

    /** `__repr__`. */
    function ToString(): (s: string)
      ensures s == "Democratic Model"
    {
      "Democratic Model"
    }
  }

  /**
    Hard voting counts votes: with the pool's votes on the first sample all
    0 or 1, one per model, and `k` of them 1, `predict_proportion` is
    `[1 - k/N, k/N]` for a pool of `N` models, both entries in [0, 1].
   */
  lemma HardProportionCountsVotes(m: DemocraticModel, X: Table)
    requires m.Valid() && m.voting != "soft" && m.estimatorPool.Some?
    requires var votes := m.pools.votes(m.estimatorPool.value, X);
             |votes| > 0 && IsBinary(votes[0]) && |votes[0]| == m.estimatorPool.value.size && |votes[0]| > 0
    ensures var votes := m.pools.votes(m.estimatorPool.value, X);
            var k := multiset(votes[0])[1] as real;
            var n := m.estimatorPool.value.size as real;
            m.PredictProportion(X) == Ok([1.0 - k / n, k / n])
    ensures 0.0 <= m.PredictProportion(X).value[0] <= 1.0 && 0.0 <= m.PredictProportion(X).value[1] <= 1.0
  {
    var votes := m.pools.votes(m.estimatorPool.value, X);
    ProportionOfPositiveVotes(votes[0], m.nEstimator);
  }

  /**
    Hard-mode `predict` is a strict majority: under the assumptions above it
    returns class 1 exactly when more than half of the models vote 1, and
    class 0 on a tie.
   */
  lemma HardPredictIsStrictMajority(m: DemocraticModel, X: Table)
    requires m.Valid() && m.voting == "hard" && m.estimatorPool.Some?
    requires var votes := m.pools.votes(m.estimatorPool.value, X);
             |votes| > 0 && IsBinary(votes[0]) && |votes[0]| == m.estimatorPool.value.size && |votes[0]| > 0
    ensures var votes := m.pools.votes(m.estimatorPool.value, X);
            var k := multiset(votes[0])[1];
            m.Predict(X) == Ok(ClassIndex(if 2 * k > m.estimatorPool.value.size then 1 else 0))
  {
    HardProportionCountsVotes(m, X);
    var votes := m.pools.votes(m.estimatorPool.value, X);
    var k := multiset(votes[0])[1];
    var p := m.PredictProportion(X);
    assert p.Ok? && p.value[1] == k as real / m.estimatorPool.value.size as real;
    MajorityThreshold(k, m.estimatorPool.value.size);
  }

  /** `k / n > 1/2` exactly when `2k > n`. */
  lemma MajorityThreshold(k: nat, n: nat)
    requires n > 0
    ensures (k as real / n as real > 0.5) <==> 2 * k > n
  {
    var q, K, N := k as real / n as real, k as real, n as real;
    assert q * N == K;
    HalfThreshold(q, K, N);
    assert (2 * k > n) <==> 2.0 * K > N;
  }

  lemma HalfThreshold(q: real, K: real, N: real)
    requires N > 0.0 && q * N == K
    ensures q > 0.5 <==> 2.0 * K > N
  {
    assert 2.0 * K - N == (2.0 * q - 1.0) * N;
  }

  /**
    Soft voting keeps probabilities: when the pool's per-model matrices
    stack into one array and each of their rows sums to 1, `predict_proba`
    succeeds and each of its rows sums to 1.
   */
  lemma SoftProbaIsRowStochastic(m: DemocraticModel, X: Table)
    requires m.Valid() && m.voting != "hard" && m.estimatorPool.Some?
    requires var probas := m.pools.probas(m.estimatorPool.value, X);
             Homogeneous(probas) && forall k | 0 <= k < |probas| :: RowStochastic(probas[k])
    ensures m.PredictProba(X).Ok?
    ensures RowStochastic(m.PredictProba(X).value)
  {
    var probas := m.pools.probas(m.estimatorPool.value, X);
    MeanIsRowStochastic(probas, |probas[0]|, Width(probas));
  }

  /**
    A `fit` on a model that already has a pool changes none of its
    predictions, whatever data it is given.
   */
  method RefitKeepsPredictions(m: DemocraticModel, X: Table, y: Labels, query: Table)
    returns (before: Result<Decision>, after: Result<Decision>)
    requires m.Valid() && m.estimatorPool.Some?
    modifies m
    ensures before == old(m.Predict(query)) && after == m.Predict(query)
    ensures before == after
  {
    before := m.Predict(query);
    var ignored := m.Fit(X, y);
    after := m.Predict(query);
  }

  /**
    The hard-voting example end to end: three models, two of them voting 1
    on the first sample, make hard `predict` return class 1.
   */
  lemma TwoOfThreeModelsPredictOne(m: DemocraticModel, X: Table)
    requires m.Valid() && m.voting == "hard" && m.estimatorPool.Some? && m.estimatorPool.value.size == 3
    requires var votes := m.pools.votes(m.estimatorPool.value, X);
             |votes| > 0 && votes[0] == [1, 1, 0]
    ensures m.Predict(X) == Ok(ClassIndex(1))
  {
    var votes := m.pools.votes(m.estimatorPool.value, X);
    assert multiset(votes[0])[1] == 2;
    HardPredictIsStrictMajority(m, X);
  }

  /**
    The soft-voting example end to end: probability vectors `[0.2, 0.8]`,
    `[0.6, 0.4]`, `[0.3, 0.7]` for one sample make `predict_proba` return
    `[[11/30, 19/30]]` and `predict` return class 1 for that sample.
   */
  lemma ThreeModelsSoftPredictOne(m: DemocraticModel, X: Table)
    requires m.Valid() && m.voting != "hard" && m.estimatorPool.Some?
    requires m.pools.probas(m.estimatorPool.value, X) == [[[0.2, 0.8]], [[0.6, 0.4]], [[0.3, 0.7]]]
    ensures m.PredictProba(X) == Ok([[11.0 / 30.0, 19.0 / 30.0]])
    ensures m.Predict(X) == Ok(ClassIndices([1]))
  {
    ThreeProbabilityVectors();
    var ix := ArgMaxRows([[11.0 / 30.0, 19.0 / 30.0]]);
    assert ix.Ok? && IsFirstMax([11.0 / 30.0, 19.0 / 30.0], ix.value[0]);
    assert ix.value == [1];
  }
}
