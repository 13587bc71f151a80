/** Construction options of the regression engine and their defaults. */
module Config {
  import opened Outcome

  /** The options object a caller passes; `None` is a key the caller left out.
      Omitting the whole object is `NoOptions`. */
  datatype Options = Options(
    learningRate: Option<real>,
    iterations: Option<int>,
    batchSize: Option<int>,
    decisionBoundary: Option<real>)

  const NoOptions: Options := Options(None, None, None, None)

  /** The configuration the engine works with once defaults are filled in. */
  datatype Settings = Settings(
    learningRate: real,
    iterations: int,
    batchSize: int,
    decisionBoundary: real)  // stored, never read by the engine

  const DefaultLearningRate: real := 0.1
  const DefaultIterations: int := 1000
  const DefaultBatchSize: int := 10
  const DefaultDecisionBoundary: real := 0.5

  /** Fallback values overlaid by whatever the caller supplied. */
  function Resolve(o: Options): (s: Settings)
    ensures s.learningRate == (if o.learningRate.Some? then o.learningRate.value else DefaultLearningRate)
    ensures s.iterations == (if o.iterations.Some? then o.iterations.value else DefaultIterations)
    ensures s.batchSize == (if o.batchSize.Some? then o.batchSize.value else DefaultBatchSize)
    ensures s.decisionBoundary == (if o.decisionBoundary.Some? then o.decisionBoundary.value else DefaultDecisionBoundary)
  {
    Settings(
      Or(o.learningRate, DefaultLearningRate),
      Or(o.iterations, DefaultIterations),
      Or(o.batchSize, DefaultBatchSize),
      Or(o.decisionBoundary, DefaultDecisionBoundary))
  }

  function Or<T>(o: Option<T>, fallback: T): T {
    match o
    case Some(v) => v
    case None => fallback
  }

  /** Without options the engine runs with learning rate 0.1, 1000 epochs,
      batches of 10 and decision boundary 0.5. */
  lemma DefaultsWhenOmitted()
    ensures Resolve(NoOptions) == Settings(0.1, 1000, 10, 0.5)
  {
  }

  /** A fully supplied options object leaves no default in place. */
  lemma SuppliedOptionsOverride(lr: real, iterations: int, batchSize: int, boundary: real)
    ensures Resolve(Options(Some(lr), Some(iterations), Some(batchSize), Some(boundary)))
         == Settings(lr, iterations, batchSize, boundary)
  {
  }
}
