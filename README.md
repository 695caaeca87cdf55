# NNX core in Dafny

This project models three parts of NNX, a small neural-network library with a
spreadsheet add-in, and proves properties of them.

- `trainer.dfy` (module `Training`) models the stochastic-gradient trainer of
  `NeuralNetworks/Training/Trainer.cs`. `Train` checks the configuration, then
  the network. It optionally re-initialises every weight from the seeded
  generator. It zeroes a previous-gradient accumulator of the weights' shape.
  Then it runs `NumEpochs` steps. Each step draws one example, computes its
  gradient at the current weights, and rewrites every weight in place as
  `w - LR * (g + QR * w + M * prev)`. Finally it copies the step's gradient
  into the accumulator. `GetError` and `GetAccuracy` evaluate a network on a
  test set.
  - The weights are one array per layer, rewritten in place by the imperative
    methods.
  - The network's forward pass, its back-propagation and `MaxIndex` are
    function values.
  - The random generator is a fixed stream of samples in `[0, 1)` plus a count
    of the samples drawn so far.
  - A whole training run is also defined on values: `Start`, `Step` and `Run`.
    The methods are proved to produce exactly that run.
- `error_calculations.dfy` (module `ErrorCalculations`) models the two loss
  functions of `NNX.Core/ErrorCalculations.cs`. It proves them equal to
  recursive sums, and proves the algebraic facts that hold over the reals.
- `excel_functions.dfy` (module `ExcelFunctions`) models the validators and
  parsers of `NNX/ExcelFunctions.cs` that do not depend on the spreadsheet
  host:
  - array classification (`nnMakeArray`);
  - weight resolution (`nnMakeWeights`);
  - the weight-shape checks of `nnMakeMultilayerPerceptron`;
  - the layer bounds of `nnGetWeights`;
  - the row filter that builds a training set;
  - the `AOrAn` article helper.

  The named-object store is a class holding a `map` from names to stored
  objects.

Doubles are modelled as mathematical reals. `0.0 / 0`, which is what an empty
mean-square error, an empty `GetError` and an empty `GetAccuracy` compute, is
the value `NaN` of `Metric`. The natural logarithm is a parameter `ln`.

After each step the accumulator holds the raw gradient returned by
`CalculateGradients` (`NeuralNetworks/Training/Trainer.cs:51`). It does not
hold the gradient combined with regularisation and momentum.
`AccumulatorHoldsRawGradient` and `MomentumUsesPreviousRawGradient` state the
consequence.

## Model

| member | source | states |
|---|---|---|
| ErrorCalculations.MeanSquareError | NNX.Core/ErrorCalculations.cs:22-37 | the loop computes `MeanSquare`: it fails exactly on a length mismatch, is NaN on empty input, and otherwise is the sum of squared differences divided by the length |
| ErrorCalculations.MeanSquareSymmetric | NNX.Core/ErrorCalculations.cs:29-34 | swapping target and output leaves the mean square error unchanged |
| ErrorCalculations.MeanSquareNonNegative | NNX.Core/ErrorCalculations.cs:29-34 | on equal-length non-empty vectors the mean square error is a value, and that value is at least 0 |
| ErrorCalculations.MeanSquareSelfIsZero | NNX.Core/ErrorCalculations.cs:29-36 | a vector compared with itself gives 0, or NaN when it is empty |
| ErrorCalculations.CrossEntropyError | NNX.Core/ErrorCalculations.cs:7-20 | the loop computes `CrossEntropy`, and it fails exactly when the lengths differ |
| ErrorCalculations.CrossEntropyIsNegatedSum | NNX.Core/ErrorCalculations.cs:14-19 | the left-to-right accumulation equals minus the sum of target[i]·ln(output[i]); nothing guards non-positive outputs |
| ErrorCalculations.CrossEntropySelfNonNegative | NNX.Core/ErrorCalculations.cs:14-19 | for a logarithm that is non-positive on (0, 1], a probability vector against itself gives a non-negative cross-entropy |
| Training.Trainer.Train | NeuralNetworks/Training/Trainer.cs:18-55 | the checks run in order: missing config, then non-positive NumEpochs, then null network; each fails before any weight changes; otherwise the weights become the run of NumEpochs steps from the start state, or the call fails on an empty training set, and the same network is returned |
| Training.Trainer.TrainNetwork | NeuralNetworks/Training/Trainer.cs:31-54 | past the checks, an empty training set fails when it is first indexed, which is after the optional initialisation; otherwise the final weights are `Run(..., Start(...), NumEpochs)` |
| Training.Trainer.TrainOnExamples | NeuralNetworks/Training/Trainer.cs:31-52 | on a non-empty training set, preparation followed by the loop leaves the weights of NumEpochs steps run from the start state |
| Training.Trainer.Prepare | NeuralNetworks/Training/Trainer.cs:31-42 | the generator is fresh for the seed; the weights, accumulator and draw count become `Start`: weights re-initialised only when configured, accumulator a new zero structure of the weights' shape |
| Training.StartWeights | NeuralNetworks/Training/Trainer.cs:33-42 | weights change only when InitializeWeights is set, and then every weight lies in [-0.1, 0.1); the accumulator starts as zeros of the weights' shape |
| Training.ZeroClone | NeuralNetworks/Training/Trainer.cs:36-42 | the clone consists of fresh, pairwise distinct arrays, and its contents are all zero in the shape of the original |
| Training.Trainer.RunEpochs | NeuralNetworks/Training/Trainer.cs:44-52 | after the loop, the weights, accumulator and draw count are `Run` of n steps from the state before it |
| Training.Trainer.NextEpoch | NeuralNetworks/Training/Trainer.cs:44-52 | one more pass of the loop extends a run of e steps to e + 1 steps |
| Training.Trainer.Epoch | NeuralNetworks/Training/Trainer.cs:46-51 | one pass of the loop body performs exactly `Step`: one draw, the weight update with the drawn example's gradient, and that gradient copied into the accumulator |
| Training.Run | NeuralNetworks/Training/Trainer.cs:44-52 | n steps draw exactly n samples and keep the shape of the weights and of the accumulator |
| Training.RandomGenerator.NextDouble | NeuralNetworks/Training/Trainer.cs:111 | the result is the next sample of the stream, in [0, 1), and the draw count grows by one |
| Training.Network.constructor | NNX/ExcelFunctions.cs:358 | a new network has one fresh array per layer, of the given lengths, pairwise distinct, with every weight zero |
| Training.RandomGenerator.Next | NeuralNetworks/Training/Trainer.cs:46 | the drawn index is floor(sample · count) and the draw count grows by one |
| Training.ScaledIndex | NeuralNetworks/Training/Trainer.cs:46-47 | the drawn index lies in [0, count) for a non-empty training set, and is 0 for an empty one |
| Training.AccumulatorHoldsRawGradient | NeuralNetworks/Training/Trainer.cs:49-51 | after every step the accumulator equals the raw gradient of that step's example at the pre-step weights |
| Training.MomentumUsesPreviousRawGradient | NeuralNetworks/Training/Trainer.cs:49-51 | in two consecutive steps, the momentum term of the second is M times the raw gradient of the first |
| Training.OneEpochFromZeroWeights | NeuralNetworks/Training/Trainer.cs:36-51 | from zero weights, with M = QR = 0 and no initialisation, one step sets each weight to -LR times its gradient |
| Training.Trainer.AdjustWeights | NeuralNetworks/Training/Trainer.cs:85-102 | every weight becomes `Update(w, g, prev)` of its own pre-update value; the accumulator is unchanged |
| Training.Trainer.AdjustRow | NeuralNetworks/Training/Trainer.cs:94-100 | each weight of the layer becomes w − LR·(g + QR·w + M·prev), where w is the value before the update |
| Training.Adjusted | NeuralNetworks/Training/Trainer.cs:89-101 | the update keeps the shape of the weights, and each layer is updated entry by entry |
| Training.PlainGradientDescent | NeuralNetworks/Training/Trainer.cs:97-99 | with M = 0 and QR = 0 the update is exactly w - LR·g |
| Training.Trainer.InitializeWeights | NeuralNetworks/Training/Trainer.cs:104-113 | every weight is overwritten with `InitValues`, layer by layer, and the generator advances by the number of weights |
| Training.Trainer.InitializeLayer | NeuralNetworks/Training/Trainer.cs:108-112 | layer i takes the samples that follow those of the layers before it |
| Training.Trainer.InitializeRow | NeuralNetworks/Training/Trainer.cs:110-111 | weight j of the layer becomes InitialWeight of the j-th next sample |
| Training.InitValuesAt | NeuralNetworks/Training/Trainer.cs:104-113 | weight j of layer i comes from sample start + Offset(i) + j, in layer-major order, and lies in [-0.1, 0.1) |
| Training.InitialWeight | NeuralNetworks/Training/Trainer.cs:111 | NextDouble()·0.2 − 0.1 lies in [-0.1, 0.1) |
| Training.CopyInto | NeuralNetworks/Training/Trainer.cs:51 | copying the gradient into the existing accumulator arrays makes the accumulator's contents equal to the gradient |
| Training.GetError | NeuralNetworks/Training/Trainer.cs:57-68 | the loop computes `MeanError`: the first length mismatch, NaN for an empty set, otherwise the summed cross-entropy divided by the count |
| Training.MeanErrorFailsOnMismatch | NeuralNetworks/Training/Trainer.cs:61-65 | GetError fails exactly when some example's output length differs from its target length |
| Training.GetAccuracy | NeuralNetworks/Training/Trainer.cs:70-83 | the result is hits divided by count, and NaN for an empty set |
| Training.HitsBounds | NeuralNetworks/Training/Trainer.cs:74-80 | hits never exceed the count; they equal it exactly when every example is a hit, and are 0 exactly when none is |
| Training.AccuracyInUnitInterval | NeuralNetworks/Training/Trainer.cs:70-83 | accuracy lies in [0, 1]; it is 1 exactly when every example is a hit and 0 exactly when none is |
| ExcelFunctions.MakeArray | NNX/ExcelFunctions.cs:24-106 | as the code is written: on success, the classified array is stored under the name and the name is returned; on failure the error is `ClassifyAsWritten`'s and the store is unchanged. That error is `Classify`'s except that a bad first non-blank cell is reported at position 0 |
| ExcelFunctions.AsWrittenDiffersOnlyAfterBlanks | NNX/ExcelFunctions.cs:37-102 | the code as written and the corrected classification disagree exactly when the first non-blank cell is of neither kind and follows at least one blank cell |
| ExcelFunctions.ClassifyEmpty | NNX/ExcelFunctions.cs:26-45 | (these `Classify` lemmas hold for the code as written too, by `AsWrittenDiffersOnlyAfterBlanks`) the empty-array error is raised exactly when every cell is null or empty, including when there are no cells |
| ExcelFunctions.ClassifyNumbers | NNX/ExcelFunctions.cs:49-73 | a number array is built exactly when some cell is a number and all others are blank; it holds the numbers in order |
| ExcelFunctions.ClassifyStrings | NNX/ExcelFunctions.cs:74-98 | a string array is built exactly when some cell is a string and all others are blank; it holds the strings in order |
| ExcelFunctions.ClassifyInconsistent | NNX/ExcelFunctions.cs:60-67 | the inconsistency error is raised only for arrays that hold both a number and a string |
| ExcelFunctions.ClassifyBadTypeNamesOffender | NNX/ExcelFunctions.cs:60-101 | the bad-type error names the first cell that is neither blank, a number nor a string (corrected behaviour; see Findings) |
| ExcelFunctions.BadTypeAsWrittenBlamesBlankCell | NNX/ExcelFunctions.cs:99-102 | as written, [empty, boolean] is reported at position 0, which holds the empty cell |
| ExcelFunctions.FindFirstNonBlank | NNX/ExcelFunctions.cs:37-42 | the skipping loop stops at the first cell that is neither null nor empty, or at the end |
| ExcelFunctions.CollectNumbers | NNX/ExcelFunctions.cs:51-72 | the loop raises the error of the first cell that is neither blank nor a number, and otherwise returns the numbers in order |
| ExcelFunctions.CollectStrings | NNX/ExcelFunctions.cs:76-97 | the loop raises the error of the first cell that is neither blank nor a string, and otherwise returns the strings in order |
| ExcelFunctions.ScanErrorIsFirstMisfit | NNX/ExcelFunctions.cs:53-70 | a collecting loop raises nothing exactly when every cell is blank or fits; otherwise it raises what the first misfit calls for |
| ExcelFunctions.NumbersInMembers | NNX/ExcelFunctions.cs:60-63 | a number is in the array exactly when some cell holds it |
| ExcelFunctions.StringsInMembers | NNX/ExcelFunctions.cs:85-88 | a string is in the array exactly when some cell holds it |
| ExcelFunctions.ObjectStore.Add | NNX/ExcelFunctions.cs:104 | the name is bound to the object, replacing any earlier binding, and no other name changes |
| ExcelFunctions.NumberArrayAt | NNX/ExcelFunctions.cs:124 | a name resolves exactly when it is bound to a number array, and it resolves to that array |
| ExcelFunctions.WeightsAt | NNX/ExcelFunctions.cs:362 | a name resolves exactly when it is bound to a weights object, and it resolves to that object's layers |
| ExcelFunctions.MakeWeights | NNX/ExcelFunctions.cs:109-134 | an empty list is rejected; otherwise the resolved arrays are stored under the name, or the first unresolved name is reported and the store is unchanged |
| ExcelFunctions.ResolveWeightsOk | NNX/ExcelFunctions.cs:118-129 | resolution succeeds exactly when every name names a number array; the result keeps the names' count and order |
| ExcelFunctions.ResolveWeightsErr | NNX/ExcelFunctions.cs:124-126 | a failure reports the 1-based index and the name of the first name that is not a number array |
| ExcelFunctions.ResolveWeightsFrame | NNX/ExcelFunctions.cs:118-129 | binding a name outside the list does not change what the list resolves to |
| ExcelFunctions.MakeMultilayerPerceptron | NNX/ExcelFunctions.cs:355-380 | an unknown weights name, a wrong layer count or a wrong layer length is rejected with the store unchanged; otherwise the new network, whose weights equal the supplied values, is stored under the name |
| ExcelFunctions.CheckWeightShape | NNX/ExcelFunctions.cs:365-374 | the count check and then the per-layer loop report exactly `WeightShapeError` against the new network's layer lengths: the count mismatch first, then the first layer whose length differs |
| ExcelFunctions.WeightShapeAccepted | NNX/ExcelFunctions.cs:365-374 | supplied weights pass the checks exactly when their shape is the network's |
| ExcelFunctions.LayerLengthErrorIsFirst | NNX/ExcelFunctions.cs:369-374 | a reported layer (1-based) differs in length from the network's, and every earlier layer matches |
| ExcelFunctions.GetWeights | NNX/ExcelFunctions.cs:408-420 | a name that is not a stored network is rejected; otherwise the result is `WeightsLayer` of the network's current weights |
| ExcelFunctions.WeightsLayer | NNX/ExcelFunctions.cs:412-416 | a layer is accepted exactly when 1 ≤ layer ≤ number of layers, and the result is then layer − 1 of the weights |
| ExcelFunctions.PrepareInputTargetSet | NNX/ExcelFunctions.cs:465-506 | different heights are rejected; otherwise the result is the examples of the good rows, or the no-good-pairs error when there are none |
| ExcelFunctions.GoodIndicesExact | NNX/ExcelFunctions.cs:480-500 | the kept positions increase strictly and are exactly the rows whose input and target cells are all numeric |
| ExcelFunctions.PairsFollowGoodRows | NNX/ExcelFunctions.cs:480-500 | the k-th example is built from the k-th kept row |
| ExcelFunctions.NoPairsIffNoGoodRow | NNX/ExcelFunctions.cs:502-503 | the no-good-pairs error is raised exactly when no row is good |
| ExcelFunctions.ToDoubles | NNX/ExcelFunctions.cs:495-496 | a numeric row converts cell by cell into a vector of its length |
| ExcelFunctions.AOrAn | NNX/ExcelFunctions.cs:534-547 | the result is "an" exactly when the lower-cased first letter is a, e, i, o, u or y, and "a" otherwise |
| ExcelFunctions.AOrAnIgnoresCase | NNX/ExcelFunctions.cs:536 | the article depends only on the first letter, whatever its case |

## Findings

| source | as written | input that shows it | evidently intended | confidence | as-written member | corrected member |
|---|---|---|---|---|---|---|
| NNX/ExcelFunctions.cs:99-102 | when the first non-blank cell is neither a number nor a string, the bad-type error always names position 0 | cells [empty, TRUE]: the error names position 0, which holds the skipped empty cell, while the offending cell is at 1 | report the position of the first non-blank cell, as the two collecting loops report theirs (lines 69 and 94) | medium; not executed | ExcelFunctions.ClassifyAsWritten, ExcelFunctions.MakeArray, ExcelFunctions.BadTypeAsWrittenBlamesBlankCell | ExcelFunctions.Classify, ExcelFunctions.ClassifyBadTypeNamesOffender |

## Left out

- Floating point: doubles are reals. Rounding, overflow, infinities and the NaN that `Math.Log` gives for non-positive arguments are not modelled. Only the NaN of `0.0 / 0` is a value of its own.
- `Math.Log` is the parameter `ln`, so nothing beyond the structure of the cross-entropy sum is proved about it.
- `RandomProvider.GetRandom` is not part of this model. A seed is mapped to a stream of samples by the parameter `randomProvider`. `Next(n)` is floor(sample · n), which is 0 for n = 0.
- The network's forward pass, `CalculateGradients`, `MaxIndex` and the construction of `MultilayerPerceptron` are not part of this model. They are function values, and a network's weight shape is a parameter.
- Training.Network.constructor stands in for `new MultilayerPerceptron(...)` (`NNX/ExcelFunctions.cs:358`), whose source is not part of this model. Its zero weights are the default contents of new arrays; `DeepCopyTo` overwrites them at line 376.
- Null collections: the training and test sets are sequences. (For `MakeArray` and `MakeWeights` a null array behaves as an empty one, which the model covers.) A null training set or test set, which throws `NullReferenceException` at `NeuralNetworks/Training/Trainer.cs:46`, `:61` and `:74`, is not modelled. For `Train` a null training set would leave the weights as in the empty-set case: initialised when configured, then the failure.
- Training.Trainer.Train: the network's layers are assumed to be distinct arrays, and its gradients are assumed to have the shape of its weights (`Network.Valid`). The code does not check either.
- Training.Trainer.AdjustWeights: requires the gradient and the accumulator to have the weights' shape. With other shapes the code would update only a prefix or throw `IndexOutOfRangeException`. `Train` always passes matching shapes.
- `DeepClone` and `DeepCopyTo` are not part of this model. The clone followed by the zeroing loop is `ZeroClone`. Its cloned values are not modelled because the loop overwrites them at once. `DeepCopyTo` is `CopyInto`.
- The outer level of the jagged weight array is a sequence of arrays, because the core never replaces a layer array. Aliasing between the network's weights and other structures is excluded by `Ready` rather than modelled.
- `TrainerConfig.Validate` and the `BatchSize`, `MaxRelativeNoise`, validation-set and early-stopping fields are left out. The trainer never reads them.
- The exception types and message texts are left out. Each exception is a case of `TrainError`, `Metric` or `NnxError` that carries the numbers the message would show.
- The implementation of `ObjectStore` is not among the modelled sources. The class `ObjectStore` here assumes that:
  - `Add` replaces an existing binding;
  - `TryGet<T>` succeeds exactly when the name is bound to an object of the requested kind;
  - a failed `Get<INeuralNetwork>` is the error `NotANetwork`.
- ExcelFunctions.MakeWeights: the names are given as strings, so the `ToString()` of arbitrary cell objects is left out.
- ExcelFunctions.MakeMultilayerPerceptron: requires the gradient oracle to preserve shape, as any `Network` does. `hiddenLayerSizes.ToIntArray()` and the network constructor are left out.
- ExcelFunctions.GetWeights: `ToVertical2DArray` and the host-side resize of the output range are left out. The result is the layer as a vector.
- ExcelFunctions.PrepareInputTargetSet: the implementations of `ExtractRow` and of the utility `ToDoubles` are not among the modelled sources. The model assumes that a matrix is a sequence of rows, that `ExtractRow` yields row i, and that `ToDoubles` converts cell by cell, an int cell to its real value.
- ExcelFunctions.AOrAn: requires a non-empty word, because the code throws `IndexOutOfRangeException` on an empty one. Lower-casing covers ASCII letters only; culture-specific case rules are left out.
- Left out entirely:
  - `NNX.AddIn/Resizer.cs` (host COM calls, threads and retries);
  - `MakeObject` and `MapPropertyType` (runtime reflection);
  - the forwarding wrappers `FeedForward`, `GetCrossEntropyError`, `GetMeanSquareError` and `TrainMultilayerPerceptron`;
  - `ResizeOutputToArray`, `ClearAllObjects`, and `GetTrainingStats`, which is not implemented.
