/** The multinomial logistic-regression engine: construction with default
    options and zero weights, the mini-batch gradient step, the epoch
    schedule with cost recording and learning-rate adaptation, and
    prediction and scoring on standardized inputs.
 */
module Regression {
  import opened Outcome
  import opened Matrix
  import opened Numerics
  import opened Config
  import opened Standardizer

  /** Guard added inside each logarithm of the cost. */
  const Epsilon: real := 0.0000001

  /** The engine's state. */
  datatype Engine = Engine(
    features: Mat,            // processed training features, N x (D + 1)
    labels: Mat,              // training labels as supplied, one row per example
    costHistory: seq<real>,   // one cost per finished epoch, most recent first
    options: Settings,
    weights: Mat,             // (D + 1) x K
    stats: Stats)             // the cached statistics of the D raw columns

  /** D, the number of raw feature columns. */
  function Width(e: Engine): nat {
    |e.stats.mean|
  }

  /** K, the number of classes: the width of the label rows. */
  function Classes(e: Engine): nat
    requires |e.labels| > 0
  {
    |e.labels[0]|
  }

  /** What construction establishes and every operation keeps. */
  predicate Valid(e: Engine) {
    && Usable(e.stats)
    && |e.features| > 0
    && IsShape(e.features, |e.features|, Width(e) + 1)
    && |e.labels| > 0
    && IsShape(e.labels, |e.labels|, Classes(e))
    && IsShape(e.weights, Width(e) + 1, Classes(e))
  }

  /** An engine whose training epoch runs without a tensor-library error:
      as many label rows as feature rows, at least one class (the cost reads
      cell [0][0]) and a batch size whose batch count is finite. */
  predicate Trainable(e: Engine) {
    && Valid(e)
    && |e.labels| == |e.features|
    && Classes(e) > 0
    && e.options.batchSize != 0
  }

  /** The constructor: processes the raw features (fitting and caching the
      statistics), fills in option defaults and starts from all-zero weights
      of shape (D + 1) x K with an empty cost history. */
  function Construct(t: Kernels, features: Mat, labels: Mat, options: Options): (r: Result<Engine>)
    requires WellBehaved(t)
    ensures r.Ok? <==> |features| > 0 && Rectangular(features) && |labels| > 0 && Rectangular(labels)
    ensures r.Ok? ==> Valid(r.value)
    ensures r.Ok? ==> IsShape(r.value.weights, |features[0]| + 1, |labels[0]|)
    ensures r.Ok? ==> forall a, k :: 0 <= a < |r.value.weights| && 0 <= k < |labels[0]| ==> r.value.weights[a][k] == 0.0
    ensures r.Ok? ==> r.value.costHistory == []
    ensures r.Ok? ==> r.value.options == Resolve(options)
    ensures r.Ok? ==> r.value.stats == Fit(features)
    ensures r.Ok? ==> r.value.features == NormalizeWithBias(t, Fit(features), features)
    ensures r.Ok? ==> r.value.labels == labels
  {
    var processed :- ProcessFeatures(t, None, features);
    if |labels| == 0 then Err(EmptyInput)
    else if !Rectangular(labels) then Err(Ragged)
    else
      var weights := Zeros(|processed.stats.mean| + 1, |labels[0]|);
      Ok(Engine(processed.features, labels, [], Resolve(options), weights, processed.stats))
  }

  /** For weight (a, c), feature `a` of every batch row times the error of
      that row's guess for class `c`. */
  function ErrorTerms(x: Mat, y: Mat, guesses: Mat, a: nat, c: nat): (e: seq<real>)
    requires forall i :: 0 <= i < |x| ==> a < |x[i]|
    requires |y| == |x| && |guesses| == |x|
    requires forall i :: 0 <= i < |x| ==> c < |y[i]| && c < |guesses[i]|
    ensures |e| == |x|
  {
    seq(|x|, i requires 0 <= i < |x| => x[i][a] * (guesses[i][c] - y[i][c]))
  }

  /** The softmax guesses of the current weights for every batch row. */
  function Guesses(t: Kernels, weights: Mat, x: Mat, k: nat): (p: Mat)
    requires WellBehaved(t)
    requires IsShape(weights, |weights|, k)
    requires IsShape(x, |x|, |weights|)
    ensures IsShape(p, |x|, k)
  {
    SoftmaxRows(t, MatMul(x, weights, k))
  }

  /** The slopes of the cross-entropy for one batch: softmax guesses minus
      the labels, multiplied by the transposed features and divided by the B
      rows of the batch.  Each slope is the mean over the batch rows of the
      feature times the error of the guess. */
  function Slopes(t: Kernels, weights: Mat, x: Mat, y: Mat, k: nat): (g: Mat)
    requires WellBehaved(t)
    requires |x| > 0
    requires IsShape(weights, |weights|, k)
    requires IsShape(x, |x|, |weights|)
    requires IsShape(y, |x|, k)
    ensures IsShape(g, |weights|, k)
  {
    var differences := Sub(Guesses(t, weights, x, k), y);
    Scale(MatMul(Transpose(x, |weights|), differences, k), 1.0 / |x| as real)
  }

  /** Slope entry (a, c) is the mean over the batch rows of feature `a`
      times the error of the guess for class `c`. */
  lemma SlopeIsMeanError(t: Kernels, weights: Mat, x: Mat, y: Mat, k: nat, a: nat, c: nat)
    requires WellBehaved(t)
    requires |x| > 0 && a < |weights| && c < k
    requires IsShape(weights, |weights|, k)
    requires IsShape(x, |x|, |weights|)
    requires IsShape(y, |x|, k)
    ensures Slopes(t, weights, x, y, k)[a][c] == Sum(ErrorTerms(x, y, Guesses(t, weights, x, k), a, c)) / |x| as real
  {
    var guesses := Guesses(t, weights, x, k);
    ProductSumsErrors(x, y, guesses, |weights|, k, a, c);
    ScaleByInverse(MatMul(Transpose(x, |weights|), Sub(guesses, y), k), |x| as real);
  }

  /** Entry (a, c) of the transposed features times the guess errors is the
      sum of the error terms. */
  lemma ProductSumsErrors(x: Mat, y: Mat, guesses: Mat, d: nat, k: nat, a: nat, c: nat)
    requires a < d && c < k
    requires IsShape(x, |x|, d)
    requires IsShape(y, |x|, k) && IsShape(guesses, |x|, k)
    ensures MatMul(Transpose(x, d), Sub(guesses, y), k)[a][c] == Sum(ErrorTerms(x, y, guesses, a, c))
  {
    var differences := Sub(guesses, y);
    var u, v := Column(x, a), Column(differences, c);
    var e := ErrorTerms(x, y, guesses, a, c);
    forall i | 0 <= i < |x|
      ensures e[i] == u[i] * v[i]
    {
      assert v[i] == differences[i][c];
    }
    DotIsSumOfProducts(u, v, e);
  }

  /** Multiplying by 1/n divides by n, entry by entry. */
  lemma ScaleByInverse(m: Mat, n: real)
    requires n > 0.0
    ensures forall i, j :: 0 <= i < |m| && 0 <= j < |m[i]| ==> Scale(m, 1.0 / n)[i][j] == m[i][j] / n
  {
    forall i, j | 0 <= i < |m| && 0 <= j < |m[i]|
      ensures Scale(m, 1.0 / n)[i][j] == m[i][j] / n
    {
      InverseIsDivision(m[i][j], n);
    }
  }

  lemma InverseIsDivision(p: real, n: real)
    requires n > 0.0
    ensures p * (1.0 / n) == p / n
  {
  }

  /** One mini-batch step on a B x (D + 1) feature slice `x` and a B x K label
      slice `y`: the weights moved against the slopes by `rate`.  A pure
      function of its arguments that keeps the (D + 1) x K shape. */
  function GradientStep(t: Kernels, weights: Mat, x: Mat, y: Mat, rate: real, k: nat): (w: Mat)
    requires WellBehaved(t)
    requires |x| > 0
    requires IsShape(weights, |weights|, k)
    requires IsShape(x, |x|, |weights|)
    requires IsShape(y, |x|, k)
    ensures IsShape(w, |weights|, k)
  {
    Sub(weights, Scale(Slopes(t, weights, x, y, k), rate))
  }

  /** Every weight moves by exactly `rate` times its slope. */
  lemma StepMovesAgainstSlope(t: Kernels, weights: Mat, x: Mat, y: Mat, rate: real, k: nat)
    requires WellBehaved(t)
    requires |x| > 0
    requires IsShape(weights, |weights|, k)
    requires IsShape(x, |x|, |weights|)
    requires IsShape(y, |x|, k)
    ensures forall a, c :: 0 <= a < |weights| && 0 <= c < k ==>
              GradientStep(t, weights, x, y, rate, k)[a][c]
              == weights[a][c] - Slopes(t, weights, x, y, k)[a][c] * rate
  {
  }

  /** At rate 0 a step leaves the weights as they were. */
  lemma StepAtRateZero(t: Kernels, weights: Mat, x: Mat, y: Mat, k: nat)
    requires WellBehaved(t)
    requires |x| > 0
    requires IsShape(weights, |weights|, k)
    requires IsShape(x, |x|, |weights|)
    requires IsShape(y, |x|, k)
    ensures GradientStep(t, weights, x, y, 0.0, k) == weights
  {
    var w := GradientStep(t, weights, x, y, 0.0, k);
    StepMovesAgainstSlope(t, weights, x, y, 0.0, k);
    assert forall a :: 0 <= a < |weights| ==> w[a] == weights[a];
  }

  /** Weights in which every entry is 0, as the constructor creates them. */
  predicate AllZero(w: Mat, k: nat)
    requires IsShape(w, |w|, k)
  {
    forall a, c :: 0 <= a < |w| && 0 <= c < k ==> w[a][c] == 0.0
  }

  /** Under all-zero weights every score is 0 and every softmax guess is 1/K. */
  lemma ZeroWeightsGuessUniformly(t: Kernels, weights: Mat, x: Mat, k: nat)
    requires WellBehaved(t)
    requires k > 0
    requires IsShape(weights, |weights|, k) && AllZero(weights, k)
    requires IsShape(x, |x|, |weights|)
    ensures forall i, c :: 0 <= i < |x| && 0 <= c < k ==>
              Guesses(t, weights, x, k)[i][c] == 1.0 / k as real
  {
    var scores := MatMul(x, weights, k);
    forall i | 0 <= i < |x|
      ensures forall c :: 0 <= c < k ==> Softmax(t, scores[i])[c] == 1.0 / k as real
    {
      forall c | 0 <= c < k
        ensures scores[i][c] == 0.0
      {
        DotZero(x[i], Column(weights, c));
      }
      SoftmaxOfConstantRow(t, scores[i], 0.0);
    }
  }

  /** From all-zero weights the slope of the bias row for class `c` is 1/K
      minus the share of class `c` among the batch's labels (with one-hot
      labels, the fraction of batch rows that belong to class `c`). */
  lemma ZeroWeightsBiasSlope(t: Kernels, weights: Mat, x: Mat, y: Mat, k: nat)
    requires WellBehaved(t)
    requires |x| > 0 && k > 0 && |weights| > 0
    requires IsShape(weights, |weights|, k) && AllZero(weights, k)
    requires IsShape(x, |x|, |weights|)
    requires IsShape(y, |x|, k)
    requires forall i :: 0 <= i < |x| ==> x[i][0] == 1.0
    ensures forall c :: 0 <= c < k ==>
              Slopes(t, weights, x, y, k)[0][c] == 1.0 / k as real - Sum(Column(y, c)) / |x| as real
  {
    ZeroWeightsGuessUniformly(t, weights, x, k);
    forall c | 0 <= c < k
      ensures Slopes(t, weights, x, y, k)[0][c] == 1.0 / k as real - Sum(Column(y, c)) / |x| as real
    {
      UniformGuessBiasSlope(t, weights, x, y, k, c);
    }
  }

  /** When every guess is 1/K, the bias-row slope for class `c` is 1/K minus
      the share of class `c` among the labels. */
  lemma UniformGuessBiasSlope(t: Kernels, weights: Mat, x: Mat, y: Mat, k: nat, c: nat)
    requires WellBehaved(t)
    requires |x| > 0 && c < k && |weights| > 0
    requires IsShape(weights, |weights|, k)
    requires IsShape(x, |x|, |weights|)
    requires IsShape(y, |x|, k)
    requires forall i :: 0 <= i < |x| ==> x[i][0] == 1.0
    requires forall i, j :: 0 <= i < |x| && 0 <= j < k ==> Guesses(t, weights, x, k)[i][j] == 1.0 / k as real
    ensures Slopes(t, weights, x, y, k)[0][c] == 1.0 / k as real - Sum(Column(y, c)) / |x| as real
  {
    SlopeIsMeanError(t, weights, x, y, k, 0, c);
    MeanBiasErrorOfUniformGuess(x, y, Guesses(t, weights, x, k), 1.0 / k as real, c);
  }

  /** When every guess for class `c` is `u`, the mean bias-row error is `u`
      minus the mean label. */
  lemma MeanBiasErrorOfUniformGuess(x: Mat, y: Mat, guesses: Mat, u: real, c: nat)
    requires |x| > 0
    requires forall i :: 0 <= i < |x| ==> 0 < |x[i]| && x[i][0] == 1.0
    requires |y| == |x| && |guesses| == |x|
    requires forall i :: 0 <= i < |x| ==> c < |y[i]| && c < |guesses[i]| && guesses[i][c] == u
    ensures Sum(ErrorTerms(x, y, guesses, 0, c)) / |x| as real == u - Sum(Column(y, c)) / |x| as real
  {
    BiasErrorsOfUniformGuess(x, y, guesses, u, c);
    UniformShare(|x| as real, u, Sum(Column(y, c)), Sum(ErrorTerms(x, y, guesses, 0, c)));
  }

  /** When every guess for class `c` is `u`, the bias-row error terms are
      `u` minus the labels, so they add up to `N * u` minus the label sum. */
  lemma BiasErrorsOfUniformGuess(x: Mat, y: Mat, guesses: Mat, u: real, c: nat)
    requires forall i :: 0 <= i < |x| ==> 0 < |x[i]| && x[i][0] == 1.0
    requires |y| == |x| && |guesses| == |x|
    requires forall i :: 0 <= i < |x| ==> c < |y[i]| && c < |guesses[i]| && guesses[i][c] == u
    ensures Sum(ErrorTerms(x, y, guesses, 0, c)) == |x| as real * u - Sum(Column(y, c))
  {
    var terms, labels := ErrorTerms(x, y, guesses, 0, c), Column(y, c);
    forall i | 0 <= i < |x|
      ensures terms[i] == u - labels[i]
    {
      assert terms[i] == 1.0 * (guesses[i][c] - y[i][c]);
    }
    SumComplement(labels, terms, u);
  }

  /** A total of `n * u - s` over `n` items has mean `u - s / n`. */
  lemma UniformShare(n: real, u: real, s: real, total: real)
    requires n > 0.0 && total == n * u - s
    ensures total / n == u - s / n
  {
  }

  /** How far the share of class `c` among the labels lies above the
      uniform share 1/K. */
  function ShareAboveUniform(y: Mat, c: nat, k: nat): real
    requires |y| > 0 && k > 0
    requires forall i :: 0 <= i < |y| ==> c < |y[i]|
  {
    Sum(Column(y, c)) / |y| as real - 1.0 / k as real
  }

  /** The first step from all-zero weights moves the bias weight of class
      `c` by `rate` times how far the share of class `c` among the labels
      lies above 1/K. */
  lemma FirstStepFromZeroWeights(t: Kernels, weights: Mat, x: Mat, y: Mat, rate: real, k: nat)
    requires WellBehaved(t)
    requires |x| > 0 && k > 0 && |weights| > 0
    requires IsShape(weights, |weights|, k) && AllZero(weights, k)
    requires IsShape(x, |x|, |weights|)
    requires IsShape(y, |x|, k)
    requires forall i :: 0 <= i < |x| ==> x[i][0] == 1.0
    ensures forall c :: 0 <= c < k ==>
              GradientStep(t, weights, x, y, rate, k)[0][c] == rate * ShareAboveUniform(y, c, k)
    ensures GradientStep(t, weights, x, y, rate, k)[0] != weights[0]
            <==> rate != 0.0 && exists c :: 0 <= c < k && ShareAboveUniform(y, c, k) != 0.0
  {
    var w := GradientStep(t, weights, x, y, rate, k);
    ZeroWeightsBiasSlope(t, weights, x, y, k);
    forall c | 0 <= c < k
      ensures w[0][c] == rate * ShareAboveUniform(y, c, k)
    {
      assert weights[0][c] == 0.0;
      StepFromZeroWeight(weights, Slopes(t, weights, x, y, k), y, rate, k, c);
    }
    BiasRowMoves(weights[0], w[0], y, rate, k);
  }

  /** A zero bias row moved to `rate` times each class's share gap differs
      from the old row exactly when the rate is nonzero and some class's
      share differs from 1/K. */
  lemma BiasRowMoves(before: seq<real>, after: seq<real>, y: Mat, rate: real, k: nat)
    requires |y| > 0 && k > 0 && IsShape(y, |y|, k)
    requires |before| == |after| == k
    requires forall c :: 0 <= c < k ==> before[c] == 0.0
    requires forall c :: 0 <= c < k ==> after[c] == rate * ShareAboveUniform(y, c, k)
    ensures after != before <==> rate != 0.0 && exists c :: 0 <= c < k && ShareAboveUniform(y, c, k) != 0.0
  {
    if rate != 0.0 && exists c :: 0 <= c < k && ShareAboveUniform(y, c, k) != 0.0 {
      var c :| 0 <= c < k && ShareAboveUniform(y, c, k) != 0.0;
      NonzeroProduct(rate, ShareAboveUniform(y, c, k));
      assert after[c] != before[c];
    } else {
      forall c | 0 <= c < k
        ensures after[c] == before[c]
      {
      }
    }
  }

  lemma NonzeroProduct(a: real, b: real)
    requires a != 0.0 && b != 0.0
    ensures a * b != 0.0
  {
  }

  /** A zero bias weight whose slope is 1/K minus the share of class `c`
      moves by `rate` times how far that share lies above 1/K. */
  lemma StepFromZeroWeight(weights: Mat, g: Mat, y: Mat, rate: real, k: nat, c: nat)
    requires 0 < |weights| && 0 < |y| && c < k
    requires IsShape(weights, |weights|, k) && IsShape(g, |weights|, k) && IsShape(y, |y|, k)
    requires weights[0][c] == 0.0 && g[0][c] == 1.0 / k as real - Sum(Column(y, c)) / |y| as real
    ensures Sub(weights, Scale(g, rate))[0][c] == rate * ShareAboveUniform(y, c, k)
  {
  }

  /** The single-batch scenario: four examples of three classes, two of them
      in class 0, trained in one batch from all-zero weights at rate 1.  Four
      rows cannot split evenly over three classes, so the class-0 bias weight
      moves to 2/4 - 1/3 = 1/6 and the weights change. */
  lemma OneBatchOfFourChangesWeights(t: Kernels, x: Mat)
    requires WellBehaved(t)
    requires IsShape(x, 4, 3)
    requires forall i :: 0 <= i < 4 ==> x[i][0] == 1.0
    ensures GradientStep(t, Zeros(3, 3), x, [[1.0, 0.0, 0.0], [0.0, 1.0, 0.0], [0.0, 0.0, 1.0], [1.0, 0.0, 0.0]], 1.0, 3)[0][0]
            == 1.0 / 6.0
    ensures GradientStep(t, Zeros(3, 3), x, [[1.0, 0.0, 0.0], [0.0, 1.0, 0.0], [0.0, 0.0, 1.0], [1.0, 0.0, 0.0]], 1.0, 3)
            != Zeros(3, 3)
  {
    var y := [[1.0, 0.0, 0.0], [0.0, 1.0, 0.0], [0.0, 0.0, 1.0], [1.0, 0.0, 0.0]];
    var first := Column(y, 0);
    assert first == [1.0, 0.0, 0.0, 1.0];
    assert Sum(first) == 2.0 by {
      assert Sum(first[3..]) == 1.0;
      assert Sum(first[2..]) == 1.0;
      assert Sum(first[1..]) == 1.0;
    }
    assert ShareAboveUniform(y, 0, 3) == 1.0 / 6.0;
    FirstStepFromZeroWeights(t, Zeros(3, 3), x, y, 1.0, 3);
  }

  /** Whole batches per epoch: floor(N / batchSize).  A negative batch size
      gives a negative quotient, so the batch loop does not run at all. */
  function BatchQuantity(n: nat, batchSize: int): (q: nat)
    requires batchSize != 0
    ensures batchSize > 0 ==> q * batchSize <= n < q * batchSize + batchSize
    ensures batchSize < 0 ==> q == 0
  {
    if batchSize > 0 then n / batchSize else 0
  }

  /** Batch `j` covers rows [j * batchSize, (j + 1) * batchSize), inside the
      first BatchQuantity * batchSize rows; fewer than batchSize rows are left
      over, and those rows are in no batch. */
  lemma BatchWithinRows(n: nat, batchSize: int, j: nat)
    requires batchSize > 0
    requires j < BatchQuantity(n, batchSize)
    ensures 0 <= j * batchSize
    ensures j * batchSize + batchSize <= BatchQuantity(n, batchSize) * batchSize <= n
  {
    var q := BatchQuantity(n, batchSize);
    assert q * batchSize == (q - j - 1) * batchSize + j * batchSize + batchSize;
    assert (q - j - 1) * batchSize >= 0;
  }

  /** The weights after the first `j` batches of an epoch, batch by batch in
      index order, all at the same rate. */
  function RunBatches(t: Kernels, x: Mat, y: Mat, weights: Mat, rate: real, batchSize: nat, k: nat, j: nat): (w: Mat)
    requires WellBehaved(t)
    requires batchSize > 0
    requires j * batchSize <= |x|
    requires IsShape(weights, |weights|, k)
    requires IsShape(x, |x|, |weights|)
    requires IsShape(y, |x|, k)
    ensures IsShape(w, |weights|, k)
    decreases j
  {
    if j == 0 then weights
    else
      var start := (j - 1) * batchSize;
      assert start + batchSize == j * batchSize;
      GradientStep(t, RunBatches(t, x, y, weights, rate, batchSize, k, j - 1),
                   x[start..start + batchSize], y[start..start + batchSize], rate, k)
  }

  /** Batch `j` extends the first `j` batches by one gradient step on rows
      [j * batchSize, j * batchSize + batchSize). */
  lemma RunBatchesStep(t: Kernels, x: Mat, y: Mat, weights: Mat, rate: real, batchSize: nat, k: nat, j: nat)
    requires WellBehaved(t)
    requires batchSize > 0
    requires (j + 1) * batchSize <= |x|
    requires IsShape(weights, |weights|, k)
    requires IsShape(x, |x|, |weights|)
    requires IsShape(y, |x|, k)
    ensures j * batchSize + batchSize == (j + 1) * batchSize
    ensures IsShape(x[j * batchSize..j * batchSize + batchSize], batchSize, |weights|)
    ensures IsShape(y[j * batchSize..j * batchSize + batchSize], batchSize, k)
    ensures RunBatches(t, x, y, weights, rate, batchSize, k, j + 1)
         == GradientStep(t, RunBatches(t, x, y, weights, rate, batchSize, k, j),
                         x[j * batchSize..j * batchSize + batchSize],
                         y[j * batchSize..j * batchSize + batchSize], rate, k)
  {
    SliceShape(x, |x|, |weights|, j * batchSize, j * batchSize + batchSize);
    SliceShape(y, |x|, k, j * batchSize, j * batchSize + batchSize);
  }

  /** Within one epoch's batch loop at a fixed learning rate, rows past the
      first `j` batches never reach a gradient step: two training sets that
      agree on rows [0, j * batchSize) give the same weights after `j`
      batches, whatever their remaining rows hold.  Those rows still enter
      the cost recorded after the epoch, and through it the next rate. */
  lemma {:induction false} RemainderRowsUnused(t: Kernels, x1: Mat, y1: Mat, x2: Mat, y2: Mat, weights: Mat,
                                               rate: real, batchSize: nat, k: nat, j: nat)
    requires WellBehaved(t)
    requires batchSize > 0
    requires j * batchSize <= |x1| && j * batchSize <= |x2|
    requires IsShape(weights, |weights|, k)
    requires IsShape(x1, |x1|, |weights|) && IsShape(y1, |x1|, k)
    requires IsShape(x2, |x2|, |weights|) && IsShape(y2, |x2|, k)
    requires x1[..j * batchSize] == x2[..j * batchSize]
    requires y1[..j * batchSize] == y2[..j * batchSize]
    ensures RunBatches(t, x1, y1, weights, rate, batchSize, k, j)
         == RunBatches(t, x2, y2, weights, rate, batchSize, k, j)
    decreases j
  {
    if j > 0 {
      var i := j - 1;
      var start := i * batchSize;
      RunBatchesStep(t, x1, y1, weights, rate, batchSize, k, i);
      RunBatchesStep(t, x2, y2, weights, rate, batchSize, k, i);
      PrefixOfPrefix(x1, x2, start, j * batchSize);
      PrefixOfPrefix(y1, y2, start, j * batchSize);
      RemainderRowsUnused(t, x1, y1, x2, y2, weights, rate, batchSize, k, i);
      SameSlice(x1, x2, start, j * batchSize);
      SameSlice(y1, y2, start, j * batchSize);
    }
  }

  lemma SameSlice(a: Mat, b: Mat, m: nat, n: nat)
    requires m <= n <= |a| && n <= |b|
    requires a[..n] == b[..n]
    ensures a[m..n] == b[m..n]
  {
    assert a[m..n] == a[..n][m..];
    assert b[m..n] == b[..n][m..];
  }

  lemma PrefixOfPrefix(a: Mat, b: Mat, m: nat, n: nat)
    requires m <= n <= |a| && n <= |b|
    requires a[..n] == b[..n]
    ensures a[..m] == b[..m]
  {
    assert a[..m] == a[..n][..m];
    assert b[..m] == b[..n][..m];
  }

  /** The weights after `j` batches of the engine's current epoch. */
  function BatchesDone(t: Kernels, e: Engine, j: nat): (w: Mat)
    requires WellBehaved(t) && Trainable(e)
    requires j <= BatchQuantity(|e.features|, e.options.batchSize)
    ensures IsShape(w, Width(e) + 1, Classes(e))
  {
    var bs := e.options.batchSize;
    if bs > 0 then
      assert j * bs <= BatchQuantity(|e.features|, bs) * bs by {
        assert (BatchQuantity(|e.features|, bs) - j) * bs >= 0;
      }
      RunBatches(t, e.features, e.labels, e.weights, e.options.learningRate, bs, Classes(e), j)
    else e.weights
  }

  /** Cross-entropy of sigmoid guesses over the whole training set.  The
      matrix form yields a K x K matrix of which only cell [0][0] is read. */
  function Cost(t: Kernels, x: Mat, y: Mat, w: Mat, k: nat): real
    requires |x| > 0 && k > 0
    requires IsShape(w, |w|, k)
    requires IsShape(x, |x|, |w|)
    requires IsShape(y, |x|, k)
  {
    CostOfScores(t, MatMul(x, w, k), y, k)
  }

  /** The cost once the scores (features times weights) are known. */
  function CostOfScores(t: Kernels, scores: Mat, y: Mat, k: nat): real
    requires |scores| > 0 && k > 0
    requires IsShape(scores, |scores|, k)
    requires IsShape(y, |scores|, k)
  {
    var guesses := MapEntries(scores, SigmoidOf(t));
    var termOne := MatMul(Transpose(y, k), MapEntries(guesses, LogGuessOf(t)), k);
    var termTwo := MatMul(Transpose(MapEntries(y, Complement), k), MapEntries(guesses, LogComplementOf(t)), k);
    -((termOne[0][0] + termTwo[0][0]) / |scores| as real)
  }

  /** The entry-wise maps of the cost formula: the sigmoid guess of a score,
      the log of a guess and the log of one minus a guess (both guarded by
      Epsilon against log 0), and one minus a label. */
  function SigmoidOf(t: Kernels): real -> real { g => Sigmoid(t, g) }
  function LogGuessOf(t: Kernels): real -> real { g => Log(t, g + Epsilon) }
  function LogComplementOf(t: Kernels): real -> real { g => Log(t, g * -1.0 + 1.0 + Epsilon) }
  const Complement: real -> real := v => v * -1.0 + 1.0

  /** The guarded log-likelihood of one example under the class-0 sigmoid
      guess: log(guess) weighted by the actual label plus log(1 - guess)
      weighted by one minus it. */
  function FirstClassLogLikelihood(t: Kernels, actual: real, score: real): real
  {
    var guess := Sigmoid(t, score);
    actual * Log(t, guess + Epsilon) + (actual * -1.0 + 1.0) * Log(t, guess * -1.0 + 1.0 + Epsilon)
  }

  /** The recorded cost is minus the mean over all N examples of the class-0
      log-likelihood, the score of example i being entry (i, 0) of the
      features times the weights. */
  lemma CostIsMeanFirstClassLogLikelihood(t: Kernels, x: Mat, y: Mat, w: Mat, k: nat)
    requires |x| > 0 && k > 0
    requires IsShape(w, |w|, k)
    requires IsShape(x, |x|, |w|)
    requires IsShape(y, |x|, k)
    ensures Cost(t, x, y, w, k) == -(Sum(LogLikelihoods(t, MatMul(x, w, k), y)) / |x| as real)
  {
    ScoresCostIsMeanLogLikelihood(t, MatMul(x, w, k), y, k);
  }

  lemma ScoresCostIsMeanLogLikelihood(t: Kernels, scores: Mat, y: Mat, k: nat)
    requires |scores| > 0 && k > 0
    requires IsShape(scores, |scores|, k)
    requires IsShape(y, |scores|, k)
    ensures CostOfScores(t, scores, y, k) == -(Sum(LogLikelihoods(t, scores, y)) / |scores| as real)
  {
    CostOfScoresAsDots(t, scores, y, k);
    DotsAreLogLikelihoods(t, scores, y);
  }

  /** The two matrix products of the cost formula, read at [0][0], are inner
      products of the first label column with the first column of the log
      guesses. */
  lemma CostOfScoresAsDots(t: Kernels, scores: Mat, y: Mat, k: nat)
    requires |scores| > 0 && k > 0
    requires IsShape(scores, |scores|, k)
    requires IsShape(y, |scores|, k)
    ensures CostOfScores(t, scores, y, k)
            == -((Dot(Column(y, 0), Column(MapEntries(MapEntries(scores, SigmoidOf(t)), LogGuessOf(t)), 0))
                  + Dot(Column(MapEntries(y, Complement), 0),
                        Column(MapEntries(MapEntries(scores, SigmoidOf(t)), LogComplementOf(t)), 0)))
                 / |scores| as real)
  {
  }

  /** The per-example log-likelihoods of a score matrix against the labels. */
  function LogLikelihoods(t: Kernels, scores: Mat, y: Mat): (r: seq<real>)
    requires |y| == |scores|
    requires forall i :: 0 <= i < |scores| ==> 0 < |scores[i]| && 0 < |y[i]|
    ensures |r| == |scores|
    ensures forall i :: 0 <= i < |scores| ==> r[i] == FirstClassLogLikelihood(t, y[i][0], scores[i][0])
  {
    seq(|scores|, i requires 0 <= i < |scores| => FirstClassLogLikelihood(t, y[i][0], scores[i][0]))
  }

  /** The two inner products add up to the per-example log-likelihoods. */
  lemma DotsAreLogLikelihoods(t: Kernels, scores: Mat, y: Mat)
    requires |scores| > 0 && |y| == |scores|
    requires forall i :: 0 <= i < |scores| ==> 0 < |scores[i]| && 0 < |y[i]|
    ensures Dot(Column(y, 0), Column(MapEntries(MapEntries(scores, SigmoidOf(t)), LogGuessOf(t)), 0))
            + Dot(Column(MapEntries(y, Complement), 0),
                  Column(MapEntries(MapEntries(scores, SigmoidOf(t)), LogComplementOf(t)), 0))
            == Sum(LogLikelihoods(t, scores, y))
  {
    var guesses := MapEntries(scores, SigmoidOf(t));
    LogLikelihoodEntries(t, scores, y);
    DotsAddUp(Column(y, 0), Column(MapEntries(guesses, LogGuessOf(t)), 0),
              Column(MapEntries(y, Complement), 0), Column(MapEntries(guesses, LogComplementOf(t)), 0),
              LogLikelihoods(t, scores, y));
  }

  /** Every example's log-likelihood, read off the columns of the cost formula. */
  lemma LogLikelihoodEntries(t: Kernels, scores: Mat, y: Mat)
    requires |y| == |scores|
    requires forall i :: 0 <= i < |scores| ==> 0 < |scores[i]| && 0 < |y[i]|
    ensures forall i :: 0 <= i < |scores| ==>
              LogLikelihoods(t, scores, y)[i]
              == Column(y, 0)[i] * Column(MapEntries(MapEntries(scores, SigmoidOf(t)), LogGuessOf(t)), 0)[i]
                 + Column(MapEntries(y, Complement), 0)[i]
                   * Column(MapEntries(MapEntries(scores, SigmoidOf(t)), LogComplementOf(t)), 0)[i]
  {
    forall i | 0 <= i < |scores|
      ensures LogLikelihoods(t, scores, y)[i]
              == Column(y, 0)[i] * Column(MapEntries(MapEntries(scores, SigmoidOf(t)), LogGuessOf(t)), 0)[i]
                 + Column(MapEntries(y, Complement), 0)[i]
                   * Column(MapEntries(MapEntries(scores, SigmoidOf(t)), LogComplementOf(t)), 0)[i]
    {
      LogLikelihoodEntry(t, scores, y, i);
    }
  }

  /** Example `i`'s log-likelihood, read off the columns of the cost formula. */
  lemma LogLikelihoodEntry(t: Kernels, scores: Mat, y: Mat, i: nat)
    requires i < |scores| == |y|
    requires forall j :: 0 <= j < |scores| ==> 0 < |scores[j]| && 0 < |y[j]|
    ensures FirstClassLogLikelihood(t, y[i][0], scores[i][0])
            == Column(y, 0)[i] * Column(MapEntries(MapEntries(scores, SigmoidOf(t)), LogGuessOf(t)), 0)[i]
               + Column(MapEntries(y, Complement), 0)[i]
                 * Column(MapEntries(MapEntries(scores, SigmoidOf(t)), LogComplementOf(t)), 0)[i]
  {
    var guesses := MapEntries(scores, SigmoidOf(t));
    var hits, misses := MapEntries(guesses, LogGuessOf(t)), MapEntries(guesses, LogComplementOf(t));
    var flipped := MapEntries(y, Complement);
    assert guesses[i][0] == SigmoidOf(t)(scores[i][0]);
    assert Column(hits, 0)[i] == LogGuessOf(t)(guesses[i][0]);
    assert Column(misses, 0)[i] == LogComplementOf(t)(guesses[i][0]);
    assert Column(flipped, 0)[i] == Complement(y[i][0]);
    LogLikelihoodByMaps(t, y[i][0], scores[i][0]);
  }

  /** Two inner products add up to the sum of the entry-wise combinations. */
  lemma DotsAddUp(a: seq<real>, b: seq<real>, c: seq<real>, d: seq<real>, e: seq<real>)
    requires |a| == |b| == |c| == |d| == |e|
    requires forall i :: 0 <= i < |e| ==> e[i] == a[i] * b[i] + c[i] * d[i]
    ensures Dot(a, b) + Dot(c, d) == Sum(e)
  {
    SumAdd(Products(a, b), Products(c, d), e);
  }

  /** The per-example log-likelihood written with the cost formula's maps. */
  lemma LogLikelihoodByMaps(t: Kernels, actual: real, score: real)
    ensures FirstClassLogLikelihood(t, actual, score)
            == actual * LogGuessOf(t)(SigmoidOf(t)(score))
               + Complement(actual) * LogComplementOf(t)(SigmoidOf(t)(score))
  {
  }

  /** Only the first class column of the weights and of the labels influences
      the recorded cost. */
  lemma CostReadsOnlyFirstClass(t: Kernels, x: Mat, y1: Mat, y2: Mat, w1: Mat, w2: Mat, k: nat)
    requires |x| > 0 && k > 0
    requires IsShape(w1, |w1|, k) && IsShape(w2, |w1|, k)
    requires IsShape(x, |x|, |w1|)
    requires IsShape(y1, |x|, k) && IsShape(y2, |x|, k)
    requires Column(w1, 0) == Column(w2, 0)
    requires Column(y1, 0) == Column(y2, 0)
    ensures Cost(t, x, y1, w1, k) == Cost(t, x, y2, w2, k)
  {
    var s1, s2 := MatMul(x, w1, k), MatMul(x, w2, k);
    FirstColumnOfProduct(x, w1, w2, k);
    var g1, g2 := MapEntries(s1, SigmoidOf(t)), MapEntries(s2, SigmoidOf(t));
    FirstColumnOfMap(s1, s2, SigmoidOf(t));
    FirstColumnOfMap(g1, g2, LogGuessOf(t));
    FirstColumnOfMap(g1, g2, LogComplementOf(t));
    FirstColumnOfMap(y1, y2, Complement);
  }

  /** Equal first weight columns give equal first columns of the product. */
  lemma FirstColumnOfProduct(x: Mat, w1: Mat, w2: Mat, k: nat)
    requires k > 0
    requires IsShape(w1, |w1|, k) && IsShape(w2, |w1|, k)
    requires IsShape(x, |x|, |w1|)
    requires Column(w1, 0) == Column(w2, 0)
    ensures Column(MatMul(x, w1, k), 0) == Column(MatMul(x, w2, k), 0)
  {
  }

  /** An entry-wise map keeps equal first columns equal. */
  lemma FirstColumnOfMap(a: Mat, b: Mat, f: real -> real)
    requires |a| == |b|
    requires forall i :: 0 <= i < |a| ==> |a[i]| > 0 && |b[i]| > 0
    requires Column(a, 0) == Column(b, 0)
    ensures Column(MapEntries(a, f), 0) == Column(MapEntries(b, f), 0)
  {
    forall i | 0 <= i < |a|
      ensures MapEntries(a, f)[i][0] == MapEntries(b, f)[i][0]
    {
      assert Column(a, 0)[i] == Column(b, 0)[i];
    }
  }

  /** Arguments on which the cost formula is defined. */
  ghost predicate CostFits(x: Mat, y: Mat, w: Mat) {
    && |x| > 0 && |y| == |x| && |y[0]| > 0
    && IsShape(w, |w|, |y[0]|)
    && IsShape(x, |x|, |w|)
    && IsShape(y, |x|, |y[0]|)
  }

  /** The kernels evaluate the training cost by the cross-entropy formula. */
  ghost predicate CostIsCrossEntropy(t: Kernels) {
    forall x, y, w :: CostFits(x, y, w) ==> EvaluatedCost(t, x, y, w) == Cost(t, x, y, w, |y[0]|)
  }

  /** The end-of-epoch bookkeeping: the cost of the current weights is put in
      front of the history; nothing else changes. */
  function RecordCost(t: Kernels, e: Engine): (e': Engine)
    requires Trainable(e)
    ensures Trainable(e')
    ensures |e'.costHistory| == |e.costHistory| + 1
    ensures forall i :: 0 <= i < |e.costHistory| ==> e'.costHistory[i + 1] == e.costHistory[i]
    ensures e'.costHistory[0] == EvaluatedCost(t, e.features, e.labels, e.weights)
    ensures e' == e.(costHistory := e'.costHistory)
  {
    var cost := EvaluatedCost(t, e.features, e.labels, e.weights);
    e.(costHistory := [cost] + e.costHistory)
  }

  /** With kernels that evaluate the cross-entropy, the recorded cost is the
      cross-entropy of the current weights on the training set. */
  lemma RecordedCostIsCrossEntropy(t: Kernels, e: Engine)
    requires CostIsCrossEntropy(t) && Trainable(e)
    ensures RecordCost(t, e).costHistory[0] == Cost(t, e.features, e.labels, e.weights, Classes(e))
  {
    assert CostFits(e.features, e.labels, e.weights);
  }

  /** The adaptive rule: nothing before two costs exist; otherwise half the
      rate after a cost increase and 1.05 times it otherwise. */
  function UpdateLearningRate(history: seq<real>, rate: real): (r: real)
    ensures |history| < 2 ==> r == rate
    ensures |history| >= 2 && history[0] > history[1] ==> r == rate / 2.0
    ensures |history| >= 2 && history[0] <= history[1] ==> r == rate * 1.05
    ensures rate > 0.0 ==> r > 0.0
    ensures rate > 0.0 && |history| >= 2 ==> (r < rate <==> history[0] > history[1])
  {
    if |history| < 2 then rate
    else if history[0] > history[1] then rate / 2.0
    else rate * 1.05
  }

  /** Costs are most recent first: [5, 3] is a rise from 3 to 5, so the rate halves. */
  lemma CostRiseHalvesRate()
    ensures UpdateLearningRate([5.0, 3.0], 1.0) == 0.5
    ensures UpdateLearningRate([3.0, 5.0], 1.0) == 1.05
  {
  }

  /** Cost recording followed by the learning-rate update. */
  function FinishEpoch(t: Kernels, e: Engine): (e': Engine)
    requires Trainable(e)
    ensures Trainable(e')
  {
    var recorded := RecordCost(t, e);
    recorded.(options := recorded.options.(learningRate :=
      UpdateLearningRate(recorded.costHistory, recorded.options.learningRate)))
  }

  /** One epoch: every whole batch in order, then cost and rate update. */
  function Epoch(t: Kernels, e: Engine): (e': Engine)
    requires WellBehaved(t) && Trainable(e)
    ensures Trainable(e')
    ensures |e'.costHistory| == |e.costHistory| + 1
    ensures e'.costHistory[1..] == e.costHistory
    ensures e'.features == e.features && e'.labels == e.labels && e'.stats == e.stats
    ensures e'.options == e.options.(learningRate := e'.options.learningRate)
    ensures e'.options.learningRate == UpdateLearningRate(e'.costHistory, e.options.learningRate)
    ensures e.options.learningRate > 0.0 ==> e'.options.learningRate > 0.0
  {
    var q := BatchQuantity(|e.features|, e.options.batchSize);
    FinishEpoch(t, e.(weights := BatchesDone(t, e, q)))
  }

  /** Reference definition of training: `n` epochs one after the other. */
  function RunEpochs(t: Kernels, e: Engine, n: nat): (e': Engine)
    requires WellBehaved(t) && Trainable(e)
    ensures Trainable(e')
    ensures e'.features == e.features && e'.labels == e.labels && e'.stats == e.stats
    ensures e'.options.batchSize == e.options.batchSize
    decreases n
  {
    if n == 0 then e else Epoch(t, RunEpochs(t, e, n - 1))
  }

  /** One more epoch on top of `n`. */
  lemma RunEpochsStep(t: Kernels, e: Engine, n: nat)
    requires WellBehaved(t) && Trainable(e)
    ensures Trainable(RunEpochs(t, e, n))
    ensures RunEpochs(t, e, n + 1) == Epoch(t, RunEpochs(t, e, n))
  {
  }

  /** Over `n` epochs the history grows by exactly `n` costs in front of the
      old ones, the data, statistics and other options stay as they were, and
      a positive learning rate stays positive. */
  lemma {:induction false} RunEpochsHistory(t: Kernels, e: Engine, n: nat)
    requires WellBehaved(t) && Trainable(e)
    ensures |RunEpochs(t, e, n).costHistory| == |e.costHistory| + n
    ensures RunEpochs(t, e, n).costHistory[n..] == e.costHistory
    ensures RunEpochs(t, e, n).features == e.features
    ensures RunEpochs(t, e, n).labels == e.labels
    ensures RunEpochs(t, e, n).stats == e.stats
    ensures RunEpochs(t, e, n).options == e.options.(learningRate := RunEpochs(t, e, n).options.learningRate)
    ensures e.options.learningRate > 0.0 ==> RunEpochs(t, e, n).options.learningRate > 0.0
  {
    if n > 0 {
      RunEpochsHistory(t, e, n - 1);
      var before := RunEpochs(t, e, n - 1);
      var after := Epoch(t, before);
      assert after.costHistory[n..] == before.costHistory[n - 1..];
    }
  }

  /** Epochs the training loop runs: `iterations` when positive, else none. */
  function Epochs(iterations: int): nat {
    if iterations > 0 then iterations else 0
  }

  lemma NextBatchFits(j: nat, q: nat, batchSize: nat, n: nat)
    requires j < q && q * batchSize <= n
    ensures (j + 1) * batchSize <= n
  {
    assert (j + 1) * batchSize <= q * batchSize by {
      assert (q - j - 1) * batchSize >= 0;
    }
  }

  lemma OneMoreEpoch(i: nat, q: nat)
    ensures (i + 1) * q == i * q + q
  {
  }

  /** The batch loop of one epoch: `q` gradient steps on consecutive
      `batchSize`-row slices, starting at row 0. */
  method BatchLoop(t: Kernels, x: Mat, y: Mat, weights: Mat, rate: real, batchSize: nat, k: nat, q: nat)
    returns (w: Mat, steps: nat)
    requires WellBehaved(t)
    requires batchSize > 0
    requires q * batchSize <= |x|
    requires IsShape(weights, |weights|, k)
    requires IsShape(x, |x|, |weights|)
    requires IsShape(y, |x|, k)
    ensures w == RunBatches(t, x, y, weights, rate, batchSize, k, q)
    ensures steps == q
  {
    w := weights;
    steps := 0;
    var j := 0;
    while j < q
      invariant 0 <= j <= q
      invariant j * batchSize <= |x|
      invariant w == RunBatches(t, x, y, weights, rate, batchSize, k, j)
      invariant steps == j
    {
      NextBatchFits(j, q, batchSize, |x|);
      w := NextBatch(t, x, y, weights, rate, batchSize, k, j, w);
      steps := steps + 1;
      j := j + 1;
    }
  }

  /** Batch `j` of the loop: one gradient step on rows
      [j * batchSize, j * batchSize + batchSize) of the current weights. */
  method NextBatch(t: Kernels, x: Mat, y: Mat, weights: Mat, rate: real, batchSize: nat, k: nat, j: nat, w: Mat)
    returns (w': Mat)
    requires WellBehaved(t)
    requires batchSize > 0
    requires (j + 1) * batchSize <= |x|
    requires IsShape(weights, |weights|, k)
    requires IsShape(x, |x|, |weights|)
    requires IsShape(y, |x|, k)
    requires w == RunBatches(t, x, y, weights, rate, batchSize, k, j)
    ensures w' == RunBatches(t, x, y, weights, rate, batchSize, k, j + 1)
  {
    RunBatchesStep(t, x, y, weights, rate, batchSize, k, j);
    var start := j * batchSize;
    w' := GradientStep(t, w, x[start..start + batchSize], y[start..start + batchSize], rate, k);
  }

  /** One pass of the outer training loop: the batch loop, then cost
      recording and the rate update.  `steps` counts the gradient steps. */
  method TrainEpoch(t: Kernels, e: Engine) returns (e': Engine, steps: nat)
    requires WellBehaved(t) && Trainable(e)
    ensures e' == Epoch(t, e)
    ensures steps == BatchQuantity(|e.features|, e.options.batchSize)
  {
    var q := BatchQuantity(|e.features|, e.options.batchSize);
    var w := e.weights;
    steps := 0;
    if e.options.batchSize > 0 {
      w, steps := BatchLoop(t, e.features, e.labels, e.weights, e.options.learningRate, e.options.batchSize, Classes(e), q);
    }
    e' := FinishEpoch(t, e.(weights := w));
  }

  /** The epoch loop: `n` epochs in order, `updates` counting gradient steps. */
  method TrainLoop(t: Kernels, e: Engine, n: nat) returns (e': Engine, updates: nat)
    requires WellBehaved(t) && Trainable(e)
    ensures e' == RunEpochs(t, e, n)
    ensures updates == n * BatchQuantity(|e.features|, e.options.batchSize)
  {
    var q := BatchQuantity(|e.features|, e.options.batchSize);
    var current := e;
    var i := 0;
    updates := 0;
    while i < n
      invariant 0 <= i <= n
      invariant current == RunEpochs(t, e, i)
      invariant updates == i * q
    {
      var steps;
      RunEpochsStep(t, e, i);
      current, steps := TrainEpoch(t, current);
      OneMoreEpoch(i, q);
      updates := updates + steps;
      i := i + 1;
    }
    e' := current;
  }

  /** The training loop.  `updates` counts the gradient steps taken.  The
      tensor library fails during the first epoch when label and feature row
      counts differ or there are no classes. */
  method Train(t: Kernels, e: Engine) returns (r: Result<Engine>, updates: nat)
    requires WellBehaved(t) && Valid(e)
    requires e.options.batchSize != 0 || e.options.iterations <= 0
    ensures r.Ok? <==> e.options.iterations <= 0 || (|e.labels| == |e.features| && Classes(e) > 0)
    ensures e.options.iterations <= 0 ==> r == Ok(e) && updates == 0
    ensures r.Ok? && e.options.iterations > 0 ==> r.value == RunEpochs(t, e, e.options.iterations)
    ensures r.Ok? ==> Valid(r.value)
    ensures r.Ok? ==> IsShape(r.value.weights, Width(e) + 1, Classes(e))
    ensures r.Ok? ==> |r.value.costHistory| == |e.costHistory| + Epochs(e.options.iterations)
    ensures r.Ok? ==> r.value.costHistory[Epochs(e.options.iterations)..] == e.costHistory
    ensures r.Ok? && e.options.iterations > 0 ==>
              updates == e.options.iterations * BatchQuantity(|e.features|, e.options.batchSize)
    ensures r.Ok? ==> r.value.features == e.features && r.value.labels == e.labels && r.value.stats == e.stats
    ensures r.Ok? ==> r.value.options == e.options.(learningRate := r.value.options.learningRate)
    ensures r.Ok? && e.options.learningRate > 0.0 ==> r.value.options.learningRate > 0.0
  {
    if e.options.iterations <= 0 {
      return Ok(e), 0;
    }
    if |e.labels| != |e.features| {
      return Err(ShapeMismatch), 0;
    }
    if Classes(e) == 0 {
      return Err(EmptyInput), 0;
    }
    var trained;
    trained, updates := TrainLoop(t, e, e.options.iterations);
    RunEpochsHistory(t, e, e.options.iterations);
    r := Ok(trained);
  }

  /** Class scores of processed observations under the current weights. */
  function Scores(e: Engine, x: Mat): (s: Mat)
    requires Valid(e)
    requires IsShape(x, |x|, Width(e) + 1)
    ensures IsShape(s, |x|, Classes(e))
  {
    MatMul(x, e.weights, Classes(e))
  }

  /** Prediction: the observations are processed with the cached training
      statistics, scored, turned into probabilities by softmax, and each row
      yields the index of its largest probability. */
  function Predict(t: Kernels, e: Engine, observations: Mat): (r: Result<seq<nat>>)
    requires WellBehaved(t) && Valid(e)
    ensures r.Ok? <==> && |observations| > 0 && Rectangular(observations)
                       && |observations[0]| == Width(e) && Classes(e) > 0
    ensures r.Ok? ==> |r.value| == |observations|
    ensures r.Ok? ==> forall i :: 0 <= i < |r.value| ==> r.value[i] < Classes(e)
  {
    var processed :- ProcessFeatures(t, Some(e.stats), observations);
    if Classes(e) == 0 then Err(EmptyInput)
    else
      var probabilities := SoftmaxRows(t, Scores(e, processed.features));
      Ok(seq(|observations|, i requires 0 <= i < |observations| => ArgMax(probabilities[i])))
  }

  /** Softmax does not change which class wins: each prediction is the first
      maximal raw score of its row, computed with the training statistics. */
  lemma PredictionIsArgMaxOfScores(t: Kernels, e: Engine, observations: Mat)
    requires WellBehaved(t) && ExpIncreasing(t) && Valid(e)
    requires Predict(t, e, observations).Ok?
    ensures forall i :: 0 <= i < |observations| ==>
              Predict(t, e, observations).value[i]
              == ArgMax(Scores(e, NormalizeWithBias(t, e.stats, observations))[i])
  {
    var x := NormalizeWithBias(t, e.stats, observations);
    var scores := Scores(e, x);
    var probabilities := SoftmaxRows(t, scores);
    assert Predict(t, e, observations).value
        == seq(|observations|, i requires 0 <= i < |observations| => ArgMax(probabilities[i]));
    forall i | 0 <= i < |observations|
      ensures ArgMax(probabilities[i]) == ArgMax(scores[i])
    {
      SoftmaxKeepsArgMax(t, scores[i]);
    }
  }

  /** A prediction depends on its own observation row only: other test rows,
      and so any statistic of the test set, cannot change it. */
  lemma PredictionIsRowwise(t: Kernels, e: Engine, a: Mat, b: Mat, i: nat)
    requires WellBehaved(t) && Valid(e)
    requires Predict(t, e, a).Ok? && Predict(t, e, b).Ok?
    requires i < |a| && i < |b| && a[i] == b[i]
    ensures Predict(t, e, a).value[i] == Predict(t, e, b).value[i]
  {
    CachedNormalizationIsRowwise(t, e.stats, a, b, i);
  }

  /** The class index of every label row (its first maximal entry). */
  function Decode(labels: Mat): (r: seq<nat>)
    requires forall i :: 0 <= i < |labels| ==> |labels[i]| > 0
    ensures |r| == |labels|
    ensures forall i :: 0 <= i < |labels| ==> r[i] < |labels[i]|
  {
    seq(|labels|, i requires 0 <= i < |labels| => ArgMax(labels[i]))
  }

  /** Share of correct predictions: (M - incorrect) / M. */
  function Accuracy(predicted: seq<nat>, actual: seq<nat>): (a: real)
    requires |predicted| == |actual| > 0
    ensures 0.0 <= a <= 1.0
    ensures a == 1.0 <==> forall i :: 0 <= i < |predicted| ==> predicted[i] == actual[i]
    ensures a == 0.0 <==> forall i :: 0 <= i < |predicted| ==> predicted[i] != actual[i]
  {
    var m := |predicted| as real;
    var incorrect := Mismatches(predicted, actual);
    FractionOfWhole(m - incorrect as real, m);
    (m - incorrect as real) / m
  }

  lemma FractionOfWhole(part: real, whole: real)
    requires 0.0 <= part <= whole && whole > 0.0
    ensures 0.0 <= part / whole <= 1.0
    ensures part / whole == 1.0 <==> part == whole
    ensures part / whole == 0.0 <==> part == 0.0
  {
    assert part == (part / whole) * whole;
  }

  /** Scoring: predictions against the label rows decoded to class indices.
      The tensor library rejects label rows that are missing, ragged or empty,
      and a label count different from the prediction count. */
  function Test(t: Kernels, e: Engine, testFeatures: Mat, testLabels: Mat): (r: Result<real>)
    requires WellBehaved(t) && Valid(e)
    ensures r.Ok? <==> && Predict(t, e, testFeatures).Ok?
                       && |testLabels| == |testFeatures|
                       && Rectangular(testLabels) && |testLabels[0]| > 0
    ensures r.Ok? ==> 0.0 <= r.value <= 1.0
    ensures r.Ok? ==> r.value == Accuracy(Predict(t, e, testFeatures).value, Decode(testLabels))
  {
    var predictions :- Predict(t, e, testFeatures);
    if |testLabels| == 0 then Err(EmptyInput)
    else if !Rectangular(testLabels) then Err(Ragged)
    else if |testLabels[0]| == 0 then Err(EmptyInput)
    else if |testLabels| != |predictions| then Err(ShapeMismatch)
    else Ok(Accuracy(predictions, Decode(testLabels)))
  }
}
