# Multinomial logistic regression: a Dafny model of the engine

This project models the `LogisticRegression` engine of a small TensorFlow.js
program that classifies MNIST digits, together with the driver's one-hot label
encoder. The engine does the following:

- It standardizes the training features column by column and caches the mean and variance. A variance of 0 is patched to 1. It then prepends a bias column of 1s.
- It starts from all-zero weights of shape (D + 1) x K.
- It trains by mini-batch gradient descent with softmax guesses.
  - There are `floor(N / batchSize)` contiguous batches per epoch. Rows past the last whole batch never reach a gradient step, but they do enter the recorded cost.
  - At the end of each epoch it prepends the cross-entropy cost to a history.
  - It then halves the learning rate if the cost rose, and multiplies it by 1.05 otherwise.
- It predicts by standardizing with the cached statistics, scoring, applying softmax, and taking a per-row argmax.
- It scores predictions against label rows decoded by argmax.

Matrices are `seq<seq<real>>` with explicit shape predicates. Reals are exact, so
float32 rounding is not modelled. Every throw of the tensor library on a bad
shape is an `Err` of the `Result` type in `Outcome`.

exp, log, sigmoid, sqrt and the float evaluation of the cost are uninterpreted.
They are the fields of a `Kernels` value (module `Numerics`) that every
operation receives as a parameter. The model assumes only a few facts about them:

- `WellBehaved`: exp is positive, and sqrt of a positive number is positive. These are the facts the divisions need.
- `ExpIncreasing`: exp is strictly increasing. Only the softmax order lemmas need this.
- `CostIsCrossEntropy`: the cost kernel computes the matrix cross-entropy formula `Regression.Cost`. Only `RecordedCostIsCrossEntropy` needs this. The epoch schedule itself treats the recorded cost as an opaque real.

Modules follow the program's structure:

- `Outcome`: errors, `Option`, `Result`.
- `Matrix`: shapes, products, transpose, argmax, mismatch count.
- `Numerics`: kernels and softmax.
- `Config`: options and defaults.
- `Standardizer`: `processFeatures` and `standardize`.
- `Regression`: construction, gradient step, batch and epoch schedule, cost, learning rate, predict, test.
- `LabelEncoding`: the driver's one-hot encoder.

The training loop is written twice:

- As pure reference functions: `RunBatches`, `Epoch` and `RunEpochs`.
- As the loop methods `BatchLoop`, `TrainEpoch`, `TrainLoop` and `Train`. Their invariants tie every iteration to the reference.

The training labels (index.js:14-18) and the test labels (index.js:36-40) are
encoded by the same lambda. Both are therefore `LabelEncoding.EncodeLabels`, so
the two encoders are identical by construction.

Some consequences of the code that are easy to misread:

- **The order of the cost history.** `recordCost` puts each new cost in front, so the history is most recent first. A history of `[5.0, 3.0]` is therefore a rise from 3 to 5, and the rate halves (`CostRiseHalvesRate`).
- **When a row-count mismatch fails.** The constructor never compares the row counts of features and labels. A mismatch surfaces in the tensor library during the first training epoch (`Construct` accepts, `Train` returns `Err`).
- **Prediction before training.** The constructor already fits and caches the standardization statistics. Prediction therefore works on a freshly constructed engine (`Predict` needs only `Valid`, which `Construct` establishes).
- **Which cost is recorded.** The recorded cost is cell [0][0] of a K x K product. It therefore depends only on the first class column of the labels and the weights (`CostReadsOnlyFirstClass`, `CostIsMeanFirstClassLogLikelihood`). It is not a cost over all classes.

## Model

| member | source | states |
|---|---|---|
| Config.Resolve | logistic_regression.js:9-17 | every setting is the caller's value when the key is present and the fallback (0.1, 1000, 10, 0.5) when it is absent |
| Config.DefaultsWhenOmitted | logistic_regression.js:9-17 | with no options the engine runs at learning rate 0.1, 1000 iterations, batch size 10, decision boundary 0.5 |
| Config.SuppliedOptionsOverride | logistic_regression.js:9-17 | a fully supplied options object replaces every default |
| Matrix.Zeros | logistic_regression.js:19 | the initial weights have exactly the requested shape and every entry is 0 |
| Regression.Construct | logistic_regression.js:4-24 | succeeds exactly when features and labels are non-empty rectangular matrices; then weights are all 0 with shape (D + 1) x K, the history is empty, the options are the resolved ones, the statistics are fitted to the training features, the features are their standardization and the labels are kept as given |
| Standardizer.ColumnVariance | logistic_regression.js:97 | the per-column population variance is never negative |
| Standardizer.Fit | logistic_regression.js:96-101 | one mean per column equal to the column mean; a variance of 0 becomes 1, any other variance is kept, so every cached variance is strictly positive |
| Standardizer.Normalize | logistic_regression.js:86-87 | with given statistics every entry of column j becomes the entry minus mean j, divided by the root of variance j, and the shape is kept |
| Standardizer.FittedColumnsAreCentred | logistic_regression.js:96-102 | standardizing with the statistics fitted to the same matrix leaves every column with mean exactly 0 |
| Standardizer.NormalizeWithBias | logistic_regression.js:86-93 | the result has the input's row count and one more column; column 0 is all 1s; column j + 1 is column j centred by the mean and divided by the root of the variance |
| Standardizer.ProcessFeatures | logistic_regression.js:82-103 | fails on an empty or ragged input and on a width that differs from cached statistics, and succeeds otherwise; with a cache the statistics are reused unchanged, without one they are fitted to this input |
| Standardizer.ProcessedShape | logistic_regression.js:82-93 | a processed matrix keeps the row count, gains exactly one column, and its first column is all 1s |
| Standardizer.CachedNormalizationIsRowwise | logistic_regression.js:86-87 | with cached statistics a processed row depends only on the same raw row, so nothing about the rest of a test set reaches it |
| Standardizer.ConstantColumnBecomesZero | logistic_regression.js:96-102 | a constant column has that constant as mean, its variance is patched to 1, and after processing it is a column of 0s |
| Regression.GradientStep | logistic_regression.js:26-38 | a gradient step keeps the (D + 1) x K shape of the weights |
| Regression.SlopeIsMeanError | logistic_regression.js:29-34 | slope entry (a, c) is the mean over the batch rows of feature a times the error (softmax guess minus label) for class c |
| Regression.ZeroWeightsBiasSlope | logistic_regression.js:29-34 | from all-zero weights the bias-row slope of class c is 1/K minus the share of class c among the batch labels |
| Regression.FirstStepFromZeroWeights | logistic_regression.js:26-38 | the first step from all-zero weights moves the bias weight of class c by the rate times (share of class c minus 1/K), and changes the bias row exactly when the rate is nonzero and some class share differs from 1/K |
| Regression.OneBatchOfFourChangesWeights | logistic_regression.js:26-38 | four examples of three classes, two in class 0, trained in one batch from zero weights at rate 1, move the class-0 bias weight to 1/6, so the weights change |
| Regression.StepAtRateZero | logistic_regression.js:37 | at learning rate 0 a gradient step returns the weights unchanged |
| Numerics.Softmax | logistic_regression.js:29 | a softmax row has the input's length, positive entries that sum to 1, and each entry is exp of its score over the sum of exps |
| Numerics.SoftmaxKeepsOrder | logistic_regression.js:29 | for an increasing exp, two softmax entries compare exactly as their scores do, in both directions |
| Numerics.SoftmaxKeepsArgMax | logistic_regression.js:69-70 | the first maximum of a softmax row is at the first maximal score |
| Regression.BatchQuantity | logistic_regression.js:43 | for a positive batch size the count is floor(N / batchSize): whole batches fit in N rows and one more would not; a negative batch size gives no batches |
| Regression.BatchWithinRows | logistic_regression.js:43-57 | batch j < batchQuantity covers rows [j * batchSize, (j + 1) * batchSize) inside [0, batchQuantity * batchSize), which lies inside [0, N) |
| Regression.RemainderRowsUnused | logistic_regression.js:43-57 | within one epoch's batch loop at a fixed rate, training sets that agree on the rows covered by the first j batches give the same weights after j batches |
| Regression.BatchLoop | logistic_regression.js:45-60 | the batch loop yields the reference weights after all batches and performs exactly batchQuantity steps |
| Regression.RecordCost | logistic_regression.js:105-124 | the evaluated cost of the current weights is prepended; the older entries move up one place unchanged and nothing else in the engine changes |
| Regression.RecordedCostIsCrossEntropy | logistic_regression.js:105-121 | with a cross-entropy cost kernel, the recorded value is the matrix cross-entropy cell [0][0] of the current weights |
| Regression.CostIsMeanFirstClassLogLikelihood | logistic_regression.js:108-120 | the cost is minus the mean over the N examples of label times log(sigmoid guess + 1e-7) plus (1 - label) times log(1 - guess + 1e-7), taking label and score from class 0 only |
| Regression.CostReadsOnlyFirstClass | logistic_regression.js:108-121 | two weight matrices and label matrices with equal first columns have the same cost |
| Regression.UpdateLearningRate | logistic_regression.js:126-135 | with fewer than 2 costs the rate is unchanged; otherwise it halves after a rise and grows by 1.05 otherwise; a positive rate stays positive and decreases exactly when the latest cost is higher |
| Regression.CostRiseHalvesRate | logistic_regression.js:126-135 | history [5, 3] (a rise) halves the rate, history [3, 5] multiplies it by 1.05 |
| Regression.Epoch | logistic_regression.js:44-63 | one epoch prepends one cost, keeps features, labels, statistics and every option but the rate, and sets the rate by the adaptive rule applied to the new history |
| Regression.RunEpochs | logistic_regression.js:44-63 | the reference training run keeps the engine trainable and the data, statistics and batch size unchanged |
| Regression.RunEpochsHistory | logistic_regression.js:44-63 | n epochs add exactly n costs in front of the old history, keep the data, statistics and other options, and keep a positive rate positive |
| Regression.TrainEpoch | logistic_regression.js:45-62 | one pass of the outer loop computes exactly the reference epoch with batchQuantity gradient steps |
| Regression.TrainLoop | logistic_regression.js:44-63 | the epoch loop computes the reference run of n epochs with n * batchQuantity gradient steps |
| Regression.Train | logistic_regression.js:40-64 | with no iterations nothing changes; otherwise training succeeds exactly when labels and features have equal row counts and there is a class, and then yields the reference run, keeps the weight shape, grows the history by exactly `iterations` in front of the old entries, performs iterations * batchQuantity updates and keeps a positive rate positive |
| Regression.Predict | logistic_regression.js:66-71 | prediction succeeds exactly for a non-empty rectangular input of the training width (with at least one class) and yields one class index in [0, K) per row |
| Regression.PredictionIsArgMaxOfScores | logistic_regression.js:66-71 | for an increasing exp each prediction is the first maximal raw score of its standardized row |
| Regression.PredictionIsRowwise | logistic_regression.js:66-67 | a row's prediction depends only on that observation row |
| Matrix.ArgMax | logistic_regression.js:70 | the result indexes a maximal entry, and every earlier entry is strictly smaller (the first maximum) |
| Matrix.ArgMaxOrderInvariant | logistic_regression.js:69-70 | rows whose entries compare alike have the same first maximum |
| Regression.Decode | logistic_regression.js:75 | one class index per label row, each within its row |
| Matrix.Mismatches | logistic_regression.js:77 | the count is at most the length, is 0 exactly when all positions agree and equals the length exactly when all differ |
| Matrix.MismatchesCountsPositions | logistic_regression.js:77 | the mismatch count equals the number of positions at which the two sequences differ |
| Regression.Accuracy | logistic_regression.js:77-79 | (M - incorrect) / M lies in [0, 1], is 1 exactly when no prediction mismatches and 0 exactly when all mismatch |
| Regression.Test | logistic_regression.js:73-80 | scoring succeeds exactly when prediction succeeds and the labels are a non-empty rectangular matrix of non-empty rows, one row per observation, and then returns the accuracy against the decoded labels |
| LabelEncoding.OneHot | index.js:14-18 | a numeric row exists exactly for labels up to 10; it has length 10, or 11 for the label 10; a label in [0, 10] is 1 at its index and every other entry is 0 |
| LabelEncoding.OneHotSumsToOne | index.js:15-16 | the encoded row of a label in [0, 10] sums to 1 |
| LabelEncoding.ArgMaxInvertsOneHot | index.js:15-16 | the first maximum of the encoded row of a label in [0, 10] is that label |
| LabelEncoding.EncodeLabels | index.js:14-18 | one encoded row per label, in order, exactly when every label is at most 10 |
| LabelEncoding.DecodeInvertsEncode | index.js:14-18 | decoding encoded labels in [0, 10] by argmax returns the labels |
| LabelEncoding.TestAgainstDigits | index.js:36-42 | scoring against encoded digits succeeds exactly when prediction does and there is one digit per test row, and then is the accuracy against the digits themselves |

## Left out

- Tensor-library internals, float32 rounding and `tf.tidy` memory management are not modelled. Reals are exact, and tensors are immutable sequences.
- The values of exp, log, sigmoid, sqrt and of the float cost are parameters. Only the facts named above are assumed about them.
- Regression.RecordCost: the recorded value is the cost kernel's result. It equals the cross-entropy formula only for kernels satisfying `CostIsCrossEntropy` (`RecordedCostIsCrossEntropy`). This keeps the schedule's proofs independent of the formula.
- The sign and size of the cost are not stated, because they depend on the float values of log and sigmoid.
- Numeric claims are not modelled: that standardized columns have variance about 1 (with exact reals their mean is exactly 0, `FittedColumnsAreCentred`), convergence, and accuracy figures. They are approximate float behaviour.
- `decisionBoundary` is stored and never read. It appears in `Settings` only.
- Options are integer or real values, or absent. An option key present with the value `undefined` is left out. So is a non-integer `iterations` or `batchSize`.
- Tensor broadcasting is left out. `processFeatures` with cached statistics of a different width, and `test` with a different label count, are `Err` here. The library would broadcast in the degenerate cases where one dimension is 1.
- The weights a failing `train` leaves behind after partial progress are left out. A failure is a plain `Err`.
- Regression.Train: requires a nonzero batch size when iterations are positive. With batch size 0 the batch count is infinite and the loop never ends.
- Regression.Test: label rows of width 0 give `Err(EmptyInput)`. What the library's argmax does on an empty axis is not modelled.
- Regression.Predict: with zero classes the result is `Err(EmptyInput)`. What the library's argmax does on an empty axis is not modelled.
- Matrix.ArgMax: ties are broken towards the first maximum. The library does not specify its tie-break, so this is a modelling choice.
- LabelEncoding.OneHot: a label above 10 lengthens the JavaScript array past index 10 and leaves holes in between. That is no numeric row, so it is `None`. A negative label sets a non-index property and leaves ten 0s. Non-integer labels are not modelled.
- The MNIST loading, `flatMap` of images, plotting and `console.log` in index.js are not modelled. They are input, output and third-party data access. So is the module path at index.js:5.
