# DualNumberFitting in Dafny

A model of the core of DualNumberFitting. It is a small neural-network trainer
that takes its gradients by forward-mode automatic differentiation with
multivariable dual numbers. All `float` arithmetic is modelled over `real`.

- `dual_number.dfy` (module `DualNumbers`) models a `CDualNumber`.
  - It is a value with `NUMVARIABLES`, `m_real` and `m_dual`.
  - It has three constructors: the empty number, a constant and a tracked variable. The constant and tracked-variable constructors fill an array buffer as the source does; the empty one allocates nothing.
  - Each operator has a specification function: the sum, difference and product rules, the quotient rule and the chain rules.
  - The scalar functions `sqrt`, `pow`, `sin`, `cos`, `tan` and `atan` are the fields of a `Libm` value. Every operator that needs one takes the `Libm` as a parameter.
- `dual_operators.dfy` (module `DualOperators`) models the operator overloads.
  - Each overload allocates its result as a zero constant and fills the partials in a loop.
  - Each method is proved to compute its specification function.
- `dual_laws.dfy` (module `DualLaws`) holds the laws the operators satisfy.
  - Subtraction undoes addition, and addition undoes subtraction.
  - Division undoes multiplication.
  - Multiplying or dividing by a constant scales every partial.
  - `pow(a, 2)` is `a * a`, `sqrt(a)^2` is `a`, and `sin^2 + cos^2` is 1.
  - `tan` is `sin / cos`, and `tan(atan(a))` is `a`.
  - Each chain-rule law holds under the scalar law it needs at the point in question.
  - The defect in `atan` is shown by a counterexample.
- `parameter_index.dfy` (module `ParameterIndex`) numbers the trainable parameters.
  - Weights come first, layer by layer, neuron by neuron, input by input. Biases follow, layer by layer, neuron by neuron.
  - `Index` is that numbering and `Locate` is its inverse. Together they prove the numbering is a bijection onto `[0, numVars)`.
- `network.dfy` (module `Network`) states what the network computes as functions of its parameters:
  - the dual forward pass and the real forward pass;
  - the cost;
  - the parameter update;
  - the training epochs.
  Lemmas prove that the real pass is the real part of the dual pass, that the cost's value is the mean squared error, and that the average cost is the mean of the sample costs.
- `nn.dfy` (module `NeuralNet`) holds the `NN` class, with the fields of `NN.h` and the methods of `NN.cpp`.
  - Each loop of the source is a method, or a loop inside one.
  - `activate` is run through `DualOperators.Sin`, like every other operator the source applies.
  - Both `forwardDual` and `subGrad` keep their own weight and bias counters. Each method proves its counters equal to `ParameterIndex.Index` at every parameter. This shows the two traversals agree.
  - Each method proves the new fields equal to the matching function of `Network` applied to the old state.

## Model

| member | source | states |
|---|---|---|
| DualNumbers.NewEmpty | DualNumberFitting/CDualNumber.cpp:7-11 | the default constructor gives no variables, value 0 and no partials |
| DualNumbers.NewConstant | DualNumberFitting/CDualNumber.cpp:13-18 | the constant constructor gives `n` variables, value `f` (0 by default) and every partial 0 |
| DualNumbers.NewVariable | DualNumberFitting/CDualNumber.cpp:21-27 | for `k < n`, the variable constructor gives `n` partials: partial `k` is 1 and all others are 0 |
| DualNumbers.OnePlusSquarePositive | DualNumberFitting/CDualNumber.h:150 | the source's arc tangent partials never divide by zero: their denominator `1 + x^2` is positive |
| DualOperators.Add | DualNumberFitting/CDualNumber.h:53-60 | `a + b` has `a`'s variable count, value `a + b`, and each partial is the sum of the operands' partials |
| DualOperators.Sub | DualNumberFitting/CDualNumber.h:63-70 | `a - b` is the pointwise difference of values and partials |
| DualOperators.Mul | DualNumberFitting/CDualNumber.h:73-80 | `a * b` follows the product rule |
| DualOperators.Div | DualNumberFitting/CDualNumber.h:84-91 | `a / b` follows the quotient rule when `b`'s value is nonzero |
| DualOperators.Sqrt | DualNumberFitting/CDualNumber.h:94-102 | `sqrt(a)` has value `sqrt x` and partials `0.5 a'_i / sqrt x`; the root must be nonzero only when there are partials |
| DualOperators.Pow | DualNumberFitting/CDualNumber.h:105-112 | `pow(a, y)` has value `pow(x, y)` and partials `y a'_i pow(x, y - 1)` |
| DualOperators.Sin | DualNumberFitting/CDualNumber.h:115-122 | `sin(a)` has value `sin x` and partials `a'_i cos x` |
| DualOperators.Cos | DualNumberFitting/CDualNumber.h:125-132 | `cos(a)` has value `cos x` and partials `-a'_i sin x` |
| DualOperators.Tan | DualNumberFitting/CDualNumber.h:135-142 | `tan(a)` has value `tan x` and partials `a'_i / cos^2 x`; `cos x` must be nonzero only when there are partials |
| DualOperators.Atan | DualNumberFitting/CDualNumber.h:145-152 | `atan(a)` as written: the value is `tan x`, and the partials are `a'_i / (1 + x^2)` |
| DualLaws.SumThenDifference | DualNumberFitting/CDualNumber.h:53-70 | `(a + b) - b == a`, value and every partial |
| DualLaws.DifferenceThenSum | DualNumberFitting/CDualNumber.h:53-70 | `(a - b) + b == a` |
| DualLaws.SumCommutes | DualNumberFitting/CDualNumber.h:53-60 | `+` is commutative on operands over the same variables |
| DualLaws.SumOfConstants | DualNumberFitting/CDualNumber.h:53-60 | the sum of two constants is the constant of their sum |
| DualLaws.ZeroPlus | DualNumberFitting/NN.cpp:166-169 | the zero constant that starts `train`'s gradient sum (and the cost sum) is a left identity of `+`: adding it to any number over the same variables leaves that number unchanged |
| DualLaws.ProductCommutes | DualNumberFitting/CDualNumber.h:73-80 | `*` is commutative on operands over the same variables |
| DualLaws.ProductByConstant | DualNumberFitting/CDualNumber.h:73-80 | multiplying by a constant `c` scales the value and every partial by `c`'s value |
| DualLaws.QuotientByConstant | DualNumberFitting/CDualNumber.h:84-91 | dividing by a nonzero constant divides the value and every partial by it |
| DualLaws.ProductThenQuotient | DualNumberFitting/CDualNumber.h:73-91 | `(a * b) / b == a` when `b`'s value is nonzero |
| DualLaws.PowerTwoIsSquare | DualNumberFitting/CDualNumber.h:105-112 | where `pow(x, 2) = x^2` and `pow(x, 1) = x`, `pow(a, 2) == a * a` |
| DualLaws.SquareRootSquared | DualNumberFitting/CDualNumber.h:94-102 | where `sqrt(x)^2 = x`, `sqrt(a) * sqrt(a) == a` |
| DualLaws.PythagoreanIdentity | DualNumberFitting/CDualNumber.h:115-132 | where `sin^2 + cos^2 = 1`, `sin(a)^2 + cos(a)^2` is the constant 1, so all its partials are 0 |
| DualLaws.TangentIsSineOverCosine | DualNumberFitting/CDualNumber.h:115-142 | where `tan = sin / cos`, `tan(a) == sin(a) / cos(a)`: the tangent rule agrees with the quotient rule |
| DualLaws.TangentOfArcTangent | DualNumberFitting/CDualNumber.h:135-152 | with the corrected arc tangent, `tan(atan(a)) == a`, value and every partial |
| DualLaws.ArcTangentAsWrittenDiffers | DualNumberFitting/CDualNumber.h:145-152 | the arc tangent as written has the right partials, but its value differs wherever `tan x != atan x` |
| DualLaws.ArcTangentAsWrittenBreaksRoundTrip | DualNumberFitting/CDualNumber.h:148 | a concrete input where `tan(atan(a))` gives `a` back with the corrected arc tangent but not with the one as written |
| ParameterIndex.Index | DualNumberFitting/NN.cpp:39-61 | weight indices lie in `[0, numWeights)` and bias indices in `[numWeights, numVars)`, each inside its own layer's block |
| ParameterIndex.IndexInjective | DualNumberFitting/NN.cpp:39-61 | distinct parameters get distinct tracked variables |
| ParameterIndex.Locate | DualNumberFitting/NN.cpp:39-40 | every index below `numVars` belongs to a parameter, and it is a weight exactly when the index is below `numWeights` |
| ParameterIndex.LocateIndex | DualNumberFitting/NN.cpp:78-96 | `Locate` undoes `Index`, so the numbering is a bijection onto `[0, numVars)` |
| Network.Activate | DualNumberFitting/NN.cpp:132-147 | the activation has value `sin x` and partials `x'_i cos x` (the chain rule for the sine) |
| Network.Scaled | DualNumberFitting/NN.cpp:81 | multiplying the gradient by the constant `lr` scales every partial by `lr` |
| Network.StepWeights | DualNumberFitting/NN.cpp:82-97 | each weight `[x][y][z]` becomes itself minus `lr * g'` at `Index(Weight(x, y, z))`, and the shape is kept |
| Network.StepBiases | DualNumberFitting/NN.cpp:82-97 | each bias `[x][y]` becomes itself minus `lr * g'` at `Index(Bias(x, y))`, and the shape is kept |
| Network.LoadInputs | DualNumberFitting/NN.cpp:43-46 | the first `|inp|` input neurons become constants, and the rest keep their old value |
| Network.LoadReals | DualNumberFitting/NN.cpp:108-111 | the first `|inp|` input values become the input, and the rest are kept |
| Network.PreActivationValue | DualNumberFitting/NN.cpp:112-124 | the real part of a dual neuron sum is the real neuron sum of `forwardF` |
| Network.LayerValues | DualNumberFitting/NN.cpp:112-124 | the real parts of a dual layer are the real layer |
| Network.RealPassIsRealParts | DualNumberFitting/NN.cpp:101-131 | `forwardF`'s recurrence computes exactly the real parts of `forwardDual`'s, layer by layer |
| Network.LoadInputsValues | DualNumberFitting/NN.cpp:108-111 | loading inputs as constants and then taking real parts is the same as loading the real inputs |
| Network.LoadRealsIdempotent | DualNumberFitting/NN.cpp:108-111 | loading the same input twice leaves the input layer as loading it once |
| Network.CostValue | DualNumberFitting/NN.cpp:63-68 | where `pow` squares, the cost's value is `sum_k (outp[k] - v_k)^2 / outSize` |
| Network.AverageCostIsMean | DualNumberFitting/NN.cpp:171 | the average cost's value and every partial are the summed cost's divided by the number of samples |
| Network.RealPassOfSample | DualNumberFitting/NN.cpp:101-131 | on the same input and state, `forwardF` gives the real parts of the values `forwardDual` leaves |
| Network.RealPassRepeatable | DualNumberFitting/NN.cpp:101-131 | running `forwardF` again on the same input gives the same layers |
| NeuralNet.LayerWeights | DualNumberFitting/NN.cpp:15-18 | a new weighted layer has `lc` rows of `px` weights, each drawn by the initialiser |
| NeuralNet.LayerBiases | DualNumberFitting/NN.cpp:11-13 | a new weighted layer has `lc` biases, each drawn by the initialiser |
| NeuralNet.ZeroValues | DualNumberFitting/NN.cpp:25-31 | every neuron of every layer is the zero constant over `numVars` variables |
| NeuralNet.BuildLayers | DualNumberFitting/NN.cpp:4-23 | the push-back loop gives one neuron vector per layer, the drawn weights and biases of every layer after the first, and the weight and bias counts |
| NeuralNet.AppendLayer | DualNumberFitting/NN.cpp:9-21 | a layer after the first appends its biases and weights, and adds `px * lc` weights and `lc` biases to the counts |
| NeuralNet.OutputCost | DualNumberFitting/NN.cpp:63-68 | the cost loop computes `Cost`, the sum of the squared errors each divided by the output size |
| NeuralNet.AddCostTerm | DualNumberFitting/NN.cpp:67 | one pass of the cost loop adds the next term of `Cost` |
| NeuralNet.NN.constructor | DualNumberFitting/NN.cpp:3-32 | the fields hold the initial parameters and zero constants. The shapes follow `desc`, `numWeights = sum desc[i-1] desc[i]`, `numBiases = sum desc[i]` and `numVars` is their sum |
| NeuralNet.NN.ClearValues | DualNumberFitting/NN.cpp:25-31 | every neuron value becomes the zero constant over `numVars` variables |
| NeuralNet.NN.ForwardDual | DualNumberFitting/NN.cpp:37-71 | the values become the dual pass on the loaded input, the result is the sample cost with its gradient, and the parameters are unchanged |
| NeuralNet.NN.LoadInput | DualNumberFitting/NN.cpp:43-46 | only the input layer changes, to `LoadInputs` |
| NeuralNet.NN.FeedForward | DualNumberFitting/NN.cpp:47-62 | the values become the dual pass from the input layer |
| NeuralNet.NN.FeedLayer | DualNumberFitting/NN.cpp:49-61 | only layer `x + 1` changes, to `LayerDual`. The counters enter at the layer's first weight and bias index and leave at the next layer's |
| NeuralNet.NN.NeuronValue | DualNumberFitting/NN.cpp:52-59 | the neuron is the activation of its bias plus weights times inputs, each seeded as variable `Index` of that parameter |
| NeuralNet.NN.SubGrad | DualNumberFitting/NN.cpp:75-99 | the weights become `StepWeights` and the biases `StepBiases` of the old parameters, and the values are untouched |
| NeuralNet.NN.StepLayer | DualNumberFitting/NN.cpp:85-96 | only layer `x` changes, and the counters advance over exactly that layer's indices |
| NeuralNet.NN.StepRow | DualNumberFitting/NN.cpp:89-94 | each weight of a neuron moves against the partial at its own index |
| NeuralNet.NN.ForwardF | DualNumberFitting/NN.cpp:103-131 | the output is the last layer of the real pass on the loaded input. Every layer's real parts become that pass, and the partials and parameters are unchanged |
| NeuralNet.NN.LoadRealInput | DualNumberFitting/NN.cpp:108-111 | only the input layer's real parts change, to `LoadReals` |
| NeuralNet.NN.FeedForwardReal | DualNumberFitting/NN.cpp:112-125 | the real parts become the real pass, and the partials are unchanged |
| NeuralNet.NN.FeedLayerReal | DualNumberFitting/NN.cpp:114-124 | only layer `x + 1`'s real parts change, to `LayerReal` |
| NeuralNet.NN.NeuronReal | DualNumberFitting/NN.cpp:117-122 | the neuron's real sum is its bias plus its weights times the previous real values |
| NeuralNet.NN.Train | DualNumberFitting/NN.cpp:149-177 | `train` stops with the input mismatch exactly when `|inp[0]|` is not the input size, and with the output mismatch exactly when the input fits but `|outp[0]|` is not the output size. In either case nothing changes. It trains exactly when both sizes fit. Otherwise the state becomes `n` epochs of training, and the result is the last epoch's average cost |
| NeuralNet.NN.RunEpochs | DualNumberFitting/NN.cpp:163-176 | after `n` epochs the state is `TrainedNet(n)`, and the result is the average cost of epoch `n` |
| NeuralNet.NN.TrainEpoch | DualNumberFitting/NN.cpp:165-173 | one epoch returns the average cost and moves the parameters by it |
| NeuralNet.NN.AverageEpochCost | DualNumberFitting/NN.cpp:166-171 | the summed sample costs divided by the number of samples |
| NeuralNet.NN.EpochCost | DualNumberFitting/NN.cpp:166-170 | the sum of the costs `forwardDual` returns for each sample in order, with the values the last sample leaves |
| NeuralNet.NN.AddSampleCost | DualNumberFitting/NN.cpp:169 | one sample's `forwardDual` cost is added to the running sum |

## Left out

- Floating point: `float` is modelled as `real`. The model has no rounding, overflow, NaN or infinity.
- Division, `sqrt` and `tan`: because of the move to `real`, these require a nonzero denominator where IEEE arithmetic would give an infinity or a NaN. For `sqrt` and `tan` the denominator is needed only when there are partials, as in the source; division also divides the value, so it always needs a nonzero divisor.
- `int` counters: `int` and `size_t` counters are unbounded `nat`. Overflow of `numWeights` on huge networks is not modelled.
- Scalar math functions: the values of `sin`, `cos`, `tan`, `atan`, `sqrt` and `pow` are parameters (`Libm`), not the C library. Any law about them is a precondition of the lemma that uses it, and whether the partials are the true derivatives is not claimed.
- Random initialisation: `fillVector` and `fill2DVector` are not part of this model (DualNumberFitting/NN.h:8 includes vectorRandom.cpp). The drawn weights and biases are the constructor parameters `weightInit` and `biasInit`, read at (layer, neuron, input) and (layer, neuron).
- Console output: this covers `operator<<`, the per-epoch print in `train` and the mismatch messages. `exit(EXIT_FAILURE)` is the `Aborted` result with its `Mismatch`.
- Driver and dead code: the driver program, the commented-out leaky ReLU in `activate`, and the unused `PI` and `EPSILON` macros.
- NeuralNet.NN.constructor: it requires every layer size to be positive. A zero-size layer would make the source skip the next layer's weights, through its `px != 0` test.
- NeuralNet.NN.Train: it checks only the first sample, as the source does. The other samples must fit the layers (`SamplesFit`), and `n > 0` is required because `m` is otherwise returned uninitialised. It also requires `|inp| > 0` and `|outp| > 0`: the source reads `inp[0]` and `outp[0]` without checking, and the driver always passes non-empty sample sets.
- NeuralNet.NN.ForwardDual: `inp` must not be longer than the input layer and `outp` not longer than the output layer, because the source indexes without checks.
- NeuralNet.NN.FeedLayer: aliasing and write order are not modelled, in this member and the others below.
  - The source writes each neuron (FeedLayer, FeedLayerReal) and each parameter (StepLayer, StepRow) into its slot of the nested vectors.
  - The model builds the layer or row in a local sequence and stores it once.
  - The loops never read a slot they have already written, other than the one being built, so the results are the same.
- `CDualNumber`: objects are modelled as values. A dual number is a value, not an object, and copying a `CDualNumber` has no observable sharing.

## Findings

| source | as written | input that shows it | evidently intended | confidence | as-written member | corrected member |
|---|---|---|---|---|---|---|
| DualNumberFitting/CDualNumber.h:148 | `atan(a)` sets its value to `tan(a.m_real)` while its partials follow the arc tangent | tracked variable `x = 1` over a math library with `tan t = 2t` and `atan t = t / 2`: `tan(atan(x))` has value 4, not 1 | value `atan(a.m_real)`, so that `tan(atan(a)) == a` | not executed | DualLaws.ArcTangentAsWrittenBreaksRoundTrip | DualLaws.TangentOfArcTangent |
