/**
  Types shared by the estimator pool and the two meta-models: feature tables,
  label vectors, the matrices a pool produces, the errors the meta-models
  raise, and the two helpers of the support library that both `fit` methods
  call (a class-balance guard and a cross-validation splitter factory).
 */
module Common {

  /** A feature table: one row per sample. */
  type Table = seq<seq<real>>

  /** A label vector, one class index per sample (classes in alphabetical order). */
  type Labels = seq<int>

  /** A pool's hard output: one row per sample, one predicted class per model. */
  type VoteMatrix = seq<seq<int>>

  /** A probability matrix: one row per sample, one probability per class. */
  type ProbaMatrix = seq<seq<real>>

  /** One cross-validation fold, as row indices. */
  datatype Fold = Fold(train: seq<nat>, test: seq<nat>)

  /** What the cross-validation splitter yields. */
  type CrossVal = seq<Fold>

  /** The exceptions the meta-models raise or let through. */
  datatype Error =
    | ClassImbalanceError                 // raised by the class-balance guard
    | AttributeError(message: string)     // a mode-gated method accessed in the wrong mode
    | ValueError(message: string)         // predicting before fit, or a ragged/empty numpy input
    | IndexError(message: string)         // positional row 0 of an empty frame
    | ZeroDivisionError                   // a vote proportion over zero estimators
    | AssertionError(message: string)     // the stacking combiner's fitted guard
    | NotFittedError(message: string)     // a pool or ruler used before its own fit
    | EmptyMean                           // the mean of no per-model matrices

  datatype Option<+T> = None | Some(value: T)

  datatype Result<+T> = Ok(value: T) | Err(error: Error)

  datatype Outcome = Pass | Fail(error: Error)

  /**
    The two helpers of the support library: `checkClassBalance` (true when
    the labels pass, false when it raises) and `getAdaptedCrossVal`.  Their
    bodies are not part of this model; they are supplied as functions.
   */
  datatype Support = Support(
    classBalanceOk: Labels -> bool,
    adaptedCrossVal: (Table, int) -> CrossVal)
}
