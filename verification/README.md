# neural-trainer in Dafny

A model of the training core of neural-trainer, a small C# library that trains neural networks.
Each double is idealised as a Dafny `real`. It covers:

- **Neurons.** A `Neuron` holds one weight per input, a bias and an activation function. It
  caches the pre-activation and the output of its last forward pass. It computes per-weight
  gradients from the cached output, and it applies additive updates in place.
- **Loss.** The squared-error loss gives the mean of the squared differences. Its derivative is
  the per-output gradient `(actual - predicted) / n`.
- **Activation functions.** ReLU, sigmoid and tanh, each with a derivative written in terms of
  the output. A factory maps the `ActivationFunctionType` enumeration to one of them.
- **Weight initializers.** Uniform, He and Xavier. Each maps one `Random.NextDouble()` draw
  affinely into a range. A factory maps the `WeightInitializerType` enumeration to one of them.
- **Progress reporting.** `StatisticsProgressReporter` is an append-only list of per-epoch records.
- **Gradient-descent trainer.** It handles any multi-layer network and any loss function,
  given as a `LossFunction` value of which squared error is one instance. Every example runs a
  forward pass, the loss and its gradient, backpropagation, and an update of every layer by
  the learning-rate-scaled gradients. Each epoch ends with one report.
- **Momentum trainer.** It trains the single-input network. Every update adds a
  momentum-scaled copy of the previous update, and that previous update is trainer state that
  lasts across calls.
- **The original single-input network.** `NeuralNetwork` is a sigmoid neuron with its own
  plain SGD loop.

The math library and the random generator are given as a `Platform` value. It holds
`Math.Exp`, `Math.Tanh`, `Math.Sqrt` and the draw stream of a seeded `Random`. Only these facts
about them are assumed:

- `exp(x) > 0` and `exp(0) = 1`;
- `-1 <= tanh(x) <= 1` and `tanh(0) = 0`;
- `sqrt(x) >= 0`;
- every draw lies in [0, 1).

An unseeded `new Random()` reads its draws from an `entropy` parameter.

Exceptions are values:

- `Result` / `Outcome` carry an `Error` (`ArgumentNull`, `Argument`, `ArgumentOutOfRange` or
  `NullReference`), with the code's parameter names and messages.
- A null reference is an `Option`, or a nullable class type.

The multi-layer network is known only through its signature. It is `NetworkOperations<N>`, a
record of function values over an opaque network state `N`, with the operations forward,
backpropagate and update-all-layers. The predicate `Lawful` says what is assumed of it, and
only about shapes:

- a forward pass yields at least one output (an assumption; the interface does not promise
  it);
- backpropagation yields one gradient per weight;
- an update of the network's own shape keeps that shape.

Files:

- `wrappers.dfy`, `runtime.dfy`: Option/Result, doubles, errors, the platform, `Random`.
- `activation_functions.dfy`, `weight_initializers.dfy`: the strategies and their factories.
- `loss_functions.dfy`: the squared-error loss, and the `LossFunction` value the trainer takes.
- `neuron.dfy`: the neuron.
- `reporting.dfy`: the reporter.
- `learning_rates.dfy`: the learning-rate check that all three constructors share.
- `network_contract.dfy`: the abstract network.
- `gradient_descent.dfy`: the gradient-descent trainer.
- `scalar_network.dfy`: the single-input network and scalar loss that the momentum trainer drives.
- `momentum.dfy`: the momentum trainer.
- `neural_network.dfy`: the original `NeuralNetwork`.

Each imperative method is proved against a pure specification function:

| method | specification function |
|---|---|
| `Calculate` | `MeanSquaredError` |
| `Derivative` | `ErrorGradient` |
| `Neuron.Forward` | `WeightedSum` |
| `Neuron.UpdateParameters` | `AddDeltas` |
| `ScaleGradients` | `ScaledUpdates` |
| `RunEpoch` / `Train` | `Epoch` / `Run`, `MomentumEpoch` / `MomentumRunFor`, `SgdEpoch` / `SgdRun` |
| `TrainEpoch` (one epoch of a trainer's `Train`) | `AdvanceRun`, `NextEpoch` |

The lemmas then state what the code promises about those functions.

## Model

| member | source | states |
|---|---|---|
| Runtime.DivideByCount | NeuralTrainer.Domain/Training/GradientDescentTrainer.cs:93 | the average loss is total / count for a positive count; for zero examples it is not finite (NaN exactly when the total is 0) |
| Runtime.NewRandom | NeuralTrainer.Domain/WeightInitializers/HeInitializer.cs:28 | a seeded generator's draws are a function of the seed alone; an unseeded one draws from the environment; both start fresh at position 0 |
| ActivationFunctions.ReLUActivate | NeuralTrainer.Domain/ActivationFunctions/ReLUActivationFunction.cs:5-8 | the result is max(0, input): at least 0 and at least the input, and equal to one of them |
| ActivationFunctions.ReLUDerivative | NeuralTrainer.Domain/ActivationFunctions/ReLUActivationFunction.cs:10-15 | the derivative is 0 or 1, and it is 1 exactly when the output is positive |
| ActivationFunctions.ReLUActivateIdempotent | NeuralTrainer.Domain/ActivationFunctions/ReLUActivationFunction.cs:5-8 | activating twice equals activating once |
| ActivationFunctions.ReLUDerivativeOfActivation | NeuralTrainer.Domain/ActivationFunctions/ReLUActivationFunction.cs:5-15 | the derivative at Activate(x) is 1 exactly when x > 0; at output 0 it is 0, so a zero input is not told apart from a negative one |
| ActivationFunctions.SigmoidActivate | NeuralTrainer.Domain/ActivationFunctions/SigmoidActivationFunction.cs:16-19 | 1 / (1 + exp(-x)) lies strictly between 0 and 1 for every x |
| ActivationFunctions.SigmoidActivateAtZero | NeuralTrainer.Domain/ActivationFunctions/SigmoidActivationFunction.cs:16-19 | sigmoid(0) = 0.5 |
| ActivationFunctions.SigmoidDerivative | NeuralTrainer.Domain/ActivationFunctions/SigmoidActivationFunction.cs:21-25 | y(1 - y) is at most 0.25, with equality exactly at 0.5; it is non-negative on [0, 1] and positive on (0, 1) |
| ActivationFunctions.SigmoidDerivativeSymmetric | NeuralTrainer.Domain/ActivationFunctions/SigmoidActivationFunction.cs:21-25 | the derivative is the same at y and at 1 - y; it is 0.25 at 0.5 and 0 at 0 and at 1 |
| ActivationFunctions.SigmoidDerivativeOfActivation | NeuralTrainer.Domain/ActivationFunctions/SigmoidActivationFunction.cs:16-25 | at any sigmoid output the derivative lies in (0, 0.25] |
| ActivationFunctions.TanhActivate | NeuralTrainer.Domain/ActivationFunctions/TanhActivationFunction.cs:5-8 | the platform's Math.Tanh: the result lies in [-1, 1] and is 0 at input 0 |
| ActivationFunctions.TanhDerivative | NeuralTrainer.Domain/ActivationFunctions/TanhActivationFunction.cs:10-14 | 1 - y² is at most 1, with equality exactly at 0; it is non-negative on [-1, 1] and 0 exactly at ±1 |
| ActivationFunctions.TanhDerivativeEven | NeuralTrainer.Domain/ActivationFunctions/TanhActivationFunction.cs:10-14 | the derivative is the same at y and at -y |
| ActivationFunctions.TanhDerivativeOfActivation | NeuralTrainer.Domain/ActivationFunctions/TanhActivationFunction.cs:5-14 | at any tanh output the derivative lies in [0, 1], and it is 1 at input 0 |
| ActivationFunctions.ActivationFunction.Activate | NeuralTrainer.Domain/ActivationFunctions/IActivationFunction.cs:5 | dispatch to the variant: a ReLU result is at least 0 and at least the input; a sigmoid result lies in (0, 1); a tanh result is the platform's tanh and lies in [-1, 1] |
| ActivationFunctions.ActivationFunction.Derivative | NeuralTrainer.Domain/ActivationFunctions/IActivationFunction.cs:6 | dispatch to the variant: a ReLU derivative is 0 or 1; sigmoid and tanh derivatives are at most 1 |
| ActivationFunctions.DerivativeOfActivationInUnit | NeuralTrainer.Domain/Neuron.cs:49-56 | the derivative a neuron takes at its activation's own output lies in [0, 1] for every activation |
| ActivationFunctions.ActivationFunctionFactory.GetActivationFunction | NeuralTrainer.Domain/ActivationFunctions/ActivationFunctionFactory.cs:27-39 | ReLU exactly for ReLU, tanh exactly for Tanh, sigmoid exactly for Sigmoid or any unlisted value |
| ActivationFunctions.ActivationFunctionFactory.GetDefaultActivationFunction | NeuralTrainer.Domain/ActivationFunctions/ActivationFunctionFactory.cs:22-25 | the default is the function for the stored type |
| WeightInitializers.UniformValue | NeuralTrainer.Domain/WeightInitializers/UniformRandomInitializer.cs:36-39 | r(max - min) + min lies in [min, max) when min < max, equals min when min = max, and lies in (max, min] when the range is reversed |
| WeightInitializers.SymmetricValue | NeuralTrainer.Domain/WeightInitializers/HeInitializer.cs:39 | (2r - 1) * scale lies in [-scale, scale), or is 0 when the scale is 0 |
| WeightInitializers.UniformRandomInitializer.constructor | NeuralTrainer.Domain/WeightInitializers/UniformRandomInitializer.cs:24-29 | stores the range; the generator is seeded when a seed is given and unseeded otherwise |
| WeightInitializers.UniformRandomInitializer.Default | NeuralTrainer.Domain/WeightInitializers/UniformRandomInitializer.cs:24 | the default range is [-1, 1], unseeded |
| WeightInitializers.UniformRandomInitializer.InitializeWeight | NeuralTrainer.Domain/WeightInitializers/UniformRandomInitializer.cs:36-39 | takes exactly one draw and maps it into the range; the fan sizes play no part |
| WeightInitializers.UniformRandomInitializer.InitializeBias | NeuralTrainer.Domain/WeightInitializers/UniformRandomInitializer.cs:42-45 | the same formula and range as a weight, on the next draw |
| WeightInitializers.UniformSeedReplays | NeuralTrainer.Domain/WeightInitializers/UniformRandomInitializer.cs:28 | two initializers with the same seed give the same values call for call, whatever the environment; each value lies in [min, max) |
| WeightInitializers.HeScale | NeuralTrainer.Domain/WeightInitializers/HeInitializer.cs:38 | sqrt(2 / fanIn), defined for fanIn > 0, is non-negative |
| WeightInitializers.HeInitializer.constructor | NeuralTrainer.Domain/WeightInitializers/HeInitializer.cs:26-29 | a seeded generator when a seed is given, an unseeded one otherwise |
| WeightInitializers.HeInitializer.InitializeWeight | NeuralTrainer.Domain/WeightInitializers/HeInitializer.cs:35-40 | one draw mapped into [-scale, scale) with scale = sqrt(2 / fanIn); fanOut plays no part |
| WeightInitializers.HeInitializer.InitializeBias | NeuralTrainer.Domain/WeightInitializers/HeInitializer.cs:42-45 | always 0 |
| WeightInitializers.HeSeedReplays | NeuralTrainer.Domain/WeightInitializers/HeInitializer.cs:26-29 | two He initializers with the same seed give the same weights call for call, each within ±scale |
| WeightInitializers.XavierLimit | NeuralTrainer.Domain/WeightInitializers/XavierInitializer.cs:15 | sqrt(2 / (fanIn + fanOut)), defined for a positive sum, is non-negative |
| WeightInitializers.XavierLimitSymmetric | NeuralTrainer.Domain/WeightInitializers/XavierInitializer.cs:15 | swapping fanIn and fanOut leaves the limit unchanged |
| WeightInitializers.XavierInitializer.constructor | NeuralTrainer.Domain/WeightInitializers/XavierInitializer.cs:7-10 | a supplied generator is used itself (shared); without one a fresh unseeded generator is made |
| WeightInitializers.XavierInitializer.InitializeWeight | NeuralTrainer.Domain/WeightInitializers/XavierInitializer.cs:12-17 | one draw mapped into [-limit, limit) |
| WeightInitializers.XavierInitializer.InitializeBias | NeuralTrainer.Domain/WeightInitializers/XavierInitializer.cs:19-22 | always 0 |
| WeightInitializers.WeightInitializer.InitializeWeight | NeuralTrainer.Domain/WeightInitializers/IWeightInitializer.cs:14 | one draw, mapped by the variant's formula |
| WeightInitializers.WeightInitializer.InitializeBias | NeuralTrainer.Domain/WeightInitializers/IWeightInitializer.cs:20 | the uniform variant takes one draw; He and Xavier take none and give 0 |
| WeightInitializers.WeightInitializerFactory.GetWeightInitializer | NeuralTrainer.Domain/WeightInitializers/WeightInitializerFactory.cs:27-37 | He exactly for He; every other value gives a uniform initializer over [-1, 1]; never Xavier; always a fresh unseeded generator |
| WeightInitializers.WeightInitializerFactory.GetDefaultWeightInitializer | NeuralTrainer.Domain/WeightInitializers/WeightInitializerFactory.cs:22-25 | the default is the initializer for the stored type |
| LossFunctions.ErrorGradient | NeuralTrainer.Domain/LossFunctions/SquaredErrorLossFunction.cs:33-42 | one gradient per output |
| LossFunctions.SumSquaredErrorNonNegative | NeuralTrainer.Domain/LossFunctions/SquaredErrorLossFunction.cs:15-20 | the summed squared error is non-negative, and it is 0 exactly when predicted = actual |
| LossFunctions.MeanSquaredErrorZeroIff | NeuralTrainer.Domain/LossFunctions/SquaredErrorLossFunction.cs:15-23 | the loss is non-negative, and it is 0 exactly when predicted = actual |
| LossFunctions.SumSquaredErrorSymmetric | NeuralTrainer.Domain/LossFunctions/SquaredErrorLossFunction.cs:18-19 | swapping predicted and actual leaves the sum unchanged |
| LossFunctions.MeanSquaredErrorSymmetric | NeuralTrainer.Domain/LossFunctions/SquaredErrorLossFunction.cs:15-23 | swapping predicted and actual leaves the loss unchanged |
| LossFunctions.ErrorGradientZeroIff | NeuralTrainer.Domain/LossFunctions/SquaredErrorLossFunction.cs:39 | every gradient element is 0 exactly when predicted = actual |
| LossFunctions.SquaredErrorLossFunction.Calculate | NeuralTrainer.Domain/LossFunctions/SquaredErrorLossFunction.cs:8-24 | null predicted, then null actual, then a length mismatch raise their exceptions; otherwise the result is the mean squared error, or NaN for two empty vectors |
| LossFunctions.SquaredErrorLossFunction.Derivative | NeuralTrainer.Domain/LossFunctions/SquaredErrorLossFunction.cs:26-43 | the same exceptions; otherwise n elements (actual[i] - predicted[i]) / n |
| LossFunctions.SquaredErrorLossValues | NeuralTrainer.Domain/LossFunctions/SquaredErrorLossFunction.cs:8-43 | the squared-error instance of `LossFunction` raises the length-mismatch error in both operations; on equal non-empty lengths its loss is the mean squared error, non-negative and 0 exactly when predicted = actual; its derivative has n elements (actual[i] - predicted[i]) / n |
| Neurons.AddDeltas | NeuralTrainer.Domain/Neuron.cs:71-74 | an update keeps the number of weights |
| Neurons.Scale | NeuralTrainer.Domain/Neuron.cs:58-62 | one weight gradient per input |
| Neurons.Neuron.constructor | NeuralTrainer.Domain/Neuron.cs:22-27 | exactly inputSize weights, the i-th made from the i-th draw, then the bias from the next; the generator advances by inputSize plus the bias's draws |
| Neurons.Neuron.Forward | NeuralTrainer.Domain/Neuron.cs:40-51 | a wrong-length input raises "Input size mismatch." and changes nothing; otherwise it caches bias + Σ inputs[i] * weights[i] and its activation and returns the activation; weights and bias are not touched |
| Neurons.Neuron.CalculateGradients | NeuralTrainer.Domain/Neuron.cs:53-65 | bias gradient = outputGradient * Derivative(cached output); weight gradient i = that times inputs[i]; no state changes |
| Neurons.Neuron.UpdateParameters | NeuralTrainer.Domain/Neuron.cs:67-76 | a wrong-length delta vector raises "Weight size mismatch." and changes nothing; otherwise weights[i] += deltas[i] for every i and bias += biasDelta |
| Neurons.WeightedSumAdditive | NeuralTrainer.Domain/Neuron.cs:44-48 | the weighted sum of updated weights is the old weighted sum plus the weighted sum of the deltas |
| Neurons.UpdatesCompose | NeuralTrainer.Domain/Neuron.cs:67-76 | two updates equal one update with the summed deltas, and their order does not matter |
| Neurons.WeightedSumOfScaledInputs | NeuralTrainer.Domain/Neuron.cs:58-62 | weighting the inputs by c times themselves gives c times their squared length |
| Neurons.UpdateShiftsPreActivation | NeuralTrainer.Domain/Neuron.cs:44-75 | after an update, the pre-activation on any input moves by biasDelta + Σ inputs[i] * deltas[i] |
| Neurons.GradientStepMovesPreActivation | NeuralTrainer.Domain/Neuron.cs:53-75 | a step of lr times the neuron's own gradients moves the pre-activation by lr * g * (1 + Σ inputs[i]²), so in the direction of the gradient g |
| Reporting.StatisticsProgressReporter.constructor | NeuralTrainer.Domain/Training/StatisticsProgressReporter.cs:10 | the list starts empty |
| Reporting.StatisticsProgressReporter.ReportProgress | NeuralTrainer.Domain/Training/StatisticsProgressReporter.cs:23-26 | exactly one record is appended, carrying the given epoch and loss; earlier records are untouched |
| LearningRates.ValidateLearningRate | NeuralTrainer.Domain/Training/GradientDescentTrainer.cs:22-33 | accepts exactly the finite rates in (0, 1]; otherwise a range error on "learningRate" with the message of the first failed check: finiteness, then positivity, then the bound 1 |
| GradientDescent.ScaledUpdatesShape | NeuralTrainer.Domain/Training/GradientDescentTrainer.cs:73-87 | the updates have the gradients' shape: layers, neurons per layer, weights per neuron |
| GradientDescent.ScaleGradients | NeuralTrainer.Domain/Training/GradientDescentTrainer.cs:71-87 | every weight delta is lr * its gradient and every bias delta lr * the bias gradient, in the gradients' shape |
| GradientDescent.GradientDescentTrainer.New | NeuralTrainer.Domain/Training/GradientDescentTrainer.cs:20-38 | succeeds exactly for a valid rate with a loss function (any `LossFunction` value) and a reporter; the errors are checked in the code's order (rate, then "lossFunction", then "progressReporter") |
| GradientDescent.GradientDescentTrainer.Train | NeuralTrainer.Domain/Training/GradientDescentTrainer.cs:44-95 | epochs <= 0 raises a range error on "epochs" before anything happens; otherwise the network and the reports are those of `Run`, and an exception stops the run where it was raised |
| GradientDescent.GradientDescentTrainer.TrainEpoch | NeuralTrainer.Domain/Training/GradientDescentTrainer.cs:53-93 | one pass of the epoch loop is one `AdvanceRun`: the epoch's examples, then its report appended, or the exception with no report |
| GradientDescent.GradientDescentTrainer.RunEpoch | NeuralTrainer.Domain/Training/GradientDescentTrainer.cs:53-91 | the examples are run in order through the given loss function, one update per example, losses summed, stopping at the first exception, whether raised by the network or by the loss |
| GradientDescent.EpochStops | NeuralTrainer.Domain/Training/GradientDescentTrainer.cs:55-91 | once an example raises, the epoch's result is fixed: later examples are not run |
| GradientDescent.ContinueEpochAfterError | NeuralTrainer.Domain/Training/GradientDescentTrainer.cs:55-91 | examples after an exception change nothing |
| GradientDescent.ContinueEpochAppend | NeuralTrainer.Domain/Training/GradientDescentTrainer.cs:55-91 | an epoch over a + b is an epoch over a, then over b from where a ended |
| GradientDescent.RunAfterError | NeuralTrainer.Domain/Training/GradientDescentTrainer.cs:51-94 | epochs after an exception change nothing |
| GradientDescent.RunReportsCount | NeuralTrainer.Domain/Training/GradientDescentTrainer.cs:51-94 | a run never has more reports than epochs, and has exactly one per epoch when nothing raised |
| GradientDescent.RunReportsStep | NeuralTrainer.Domain/Training/GradientDescentTrainer.cs:51-94 | each epoch either adds nothing (it raised, or an earlier one did) or appends exactly its own report at the end |
| GradientDescent.RunReportsRecords | NeuralTrainer.Domain/Training/GradientDescentTrainer.cs:51-94 | report i is the record of epoch i: number i and epoch i's summed loss / example count |
| GradientDescent.RunReports | NeuralTrainer.Domain/Training/GradientDescentTrainer.cs:51-94 | one report per completed epoch, numbered 0, 1, ... in order; all epochs when nothing raised; each carries that epoch's summed loss / example count |
| GradientDescent.ExampleStepKeepsShape | NeuralTrainer.Domain/Training/GradientDescentTrainer.cs:58-90 | one example keeps the network's shape |
| GradientDescent.ContinueEpochKeepsShape | NeuralTrainer.Domain/Training/GradientDescentTrainer.cs:55-91 | an epoch keeps the network's shape, whether or not it completes |
| GradientDescent.RunKeepsShape | NeuralTrainer.Domain/Training/GradientDescentTrainer.cs:51-94 | training never changes the network's shape |
| ScalarNetworks.SquaredErrorScalarLossValues | NeuralTrainer.Domain/LossFunctions/SquaredErrorLossFunction.cs:15-42 | on one output the loss is (actual - predicted)², 0 exactly when they are equal, and the derivative is actual - predicted |
| ScalarNetworks.ScalarNetwork.constructor | NeuralTrainer.Tests/Unit/Domain/NeuralNetworkTests.cs:10-27 | the weight is drawn with fan sizes (1, 1) and then the bias is drawn |
| ScalarNetworks.ScalarNetwork.Forward | NeuralTrainer.Tests/Unit/Domain/NeuralNetworkTests.cs:28-51 | the activation applied once to input * weight + bias; the output lies in (0, 1) for sigmoid and in [-1, 1] for tanh, and for ReLU it is at least 0 and at least the pre-activation |
| ScalarNetworks.ScalarNetwork.UpdateParameters | NeuralTrainer.Tests/Unit/Domain/NeuralNetworkTests.cs:54-71 | the deltas are added to the weight and the bias |
| Momentum.MomentumStep | NeuralTrainer.Domain/Training/MomentumTrainer.cs:69-83 | after a step each parameter has moved by exactly the delta stored as its previous delta |
| Momentum.MomentumTrainer.New | NeuralTrainer.Domain/Training/MomentumTrainer.cs:36-55 | succeeds exactly for a valid learning rate; momentum, loss function and reporter are stored unchecked; the previous deltas start at 0 |
| Momentum.MomentumTrainer.Train | NeuralTrainer.Domain/Training/MomentumTrainer.cs:61-88 | no epochs (and nothing changed) when epochs <= 0; otherwise the network, the previous deltas and the reports are those of `MomentumRunFor`, with its NullReference for a missing loss function or reporter |
| Momentum.MomentumTrainer.TrainEpoch | NeuralTrainer.Domain/Training/MomentumTrainer.cs:65-86 | one pass of the epoch loop is one `NextEpoch`: NullReference at the first example without a loss function, or after the updates without a reporter; otherwise the updates and one appended report |
| Momentum.MomentumTrainer.RunEpoch | NeuralTrainer.Domain/Training/MomentumTrainer.cs:65-84 | the examples in order, each update lr*g*x + m*prevW and lr*g + m*prevB, previous deltas rewritten after each, losses summed |
| Momentum.MomentumRunStops | NeuralTrainer.Domain/Training/MomentumTrainer.cs:63-87 | after an exception later epochs change nothing |
| Momentum.ZeroMomentumIsPlainStep | NeuralTrainer.Domain/Training/MomentumTrainer.cs:77-78 | with momentum 0 every step is the plain learning-rate-scaled step |
| Momentum.FirstStepIsPlainStep | NeuralTrainer.Domain/Training/MomentumTrainer.cs:29-30 | with the initial previous deltas of 0 a step is the plain step, whatever the momentum |
| Momentum.MomentumStepDecomposes | NeuralTrainer.Domain/Training/MomentumTrainer.cs:77-78 | each delta is the plain delta plus momentum times the previous delta |
| Momentum.ZeroMomentumSquaredErrorIsSgdStep | NeuralTrainer.Domain/Training/MomentumTrainer.cs:69-80 | with momentum 0, sigmoid and squared error, a momentum step moves the weight and the bias exactly as `NeuralNetwork.Train` does |
| Momentum.MomentumEpochAppend | NeuralTrainer.Domain/Training/MomentumTrainer.cs:67-84 | an epoch over a + b is an epoch over a, then over b, previous deltas carried along |
| Momentum.MomentumStatesCompose | NeuralTrainer.Domain/Training/MomentumTrainer.cs:63-87 | first + second complete epochs end where second epochs started from the state after first end |
| Momentum.MomentumRunsCompose | NeuralTrainer.Domain/Training/MomentumTrainer.cs:61-88 | training first + second epochs in one call or in two calls gives the same parameters and previous deltas: the momentum state persists |
| Momentum.MomentumRunNeverFails | NeuralTrainer.Domain/Training/MomentumTrainer.cs:63-87 | with a loss function and a reporter nothing raises, and there is exactly one report per epoch, numbered 0, 1, ... |
| Momentum.MomentumRunState | NeuralTrainer.Domain/Training/MomentumTrainer.cs:63-87 | with a loss function and a reporter a run ends in the state of that many complete epochs |
| Momentum.MomentumRunReportsEpochs | NeuralTrainer.Domain/Training/MomentumTrainer.cs:63-87 | with a loss function and a reporter the reported epoch numbers are exactly 0, 1, ..., epochs - 1 |
| Momentum.MomentumRunReportsStep | NeuralTrainer.Domain/Training/MomentumTrainer.cs:63-87 | one more epoch appends exactly one report: its epoch number and the summed loss of that epoch divided by the example count |
| Momentum.MomentumRunReportsRecords | NeuralTrainer.Domain/Training/MomentumTrainer.cs:63-87 | report i carries epoch number i and the average loss of epoch i, that is epoch i's summed loss divided by the example count |
| Momentum.MomentumRunLength | NeuralTrainer.Domain/Training/MomentumTrainer.cs:63-87 | with a loss function and a reporter a run ends without an exception and with one report per epoch |
| Momentum.NextEpochAppendsReport | NeuralTrainer.Domain/Training/MomentumTrainer.cs:63-87 | from the state after k epochs, one more epoch appends the record of epoch k and nothing else |
| SingleNeuronNetwork.Output | NeuralTrainer.Domain/NeuralNetwork.cs:33-37 | the output lies in (0, 1) |
| SingleNeuronNetwork.NeuralNetwork.New | NeuralTrainer.Domain/NeuralNetwork.cs:9-31 | succeeds exactly for a valid learning rate, with the code's messages; the weight and then the bias are draw * 2 - 1, each in [-1, 1) |
| SingleNeuronNetwork.NeuralNetwork.NewWithDefaultLearningRate | NeuralTrainer.Domain/NeuralNetwork.cs:9-30 | the default rate 0.1 is accepted; the network keeps the platform, and its weight and then its bias are draws 0 and 1 of a fresh unseeded generator, each as draw * 2 - 1 in [-1, 1) |
| SingleNeuronNetwork.NeuralNetwork.Forward | NeuralTrainer.Domain/NeuralNetwork.cs:33-37 | sigmoid(input * weight + bias), in (0, 1), reading the parameters only |
| SingleNeuronNetwork.NeuralNetwork.Train | NeuralTrainer.Domain/NeuralNetwork.cs:39-68 | nothing changes when epochs <= 0; otherwise the parameters are those of `SgdRun`, one example at a time in order |
| SingleNeuronNetwork.NeuralNetwork.RunEpoch | NeuralTrainer.Domain/NeuralNetwork.cs:45-60 | one epoch: the parameters become those of `SgdEpoch`, each example's update made before the next forward pass |
| SingleNeuronNetwork.SgdStepAtTarget | NeuralTrainer.Domain/NeuralNetwork.cs:51-59 | with a positive rate the bias stays put exactly when output = target, and then so does the weight; otherwise the bias moves toward the target |
| SingleNeuronNetwork.SgdStepZeroInput | NeuralTrainer.Domain/NeuralNetwork.cs:58 | an example with input 0 leaves the weight unchanged |
| SingleNeuronNetwork.SgdEpochZeroInputs | NeuralTrainer.Domain/NeuralNetwork.cs:45-60 | an epoch of zero inputs leaves the weight unchanged |
| SingleNeuronNetwork.SgdRunZeroInputs | NeuralTrainer.Domain/NeuralNetwork.cs:41-67 | examples with only zero inputs leave the weight unchanged over any number of epochs |
| SingleNeuronNetwork.SgdRunWithoutExamples | NeuralTrainer.Domain/NeuralNetwork.cs:41-67 | with no examples any number of epochs changes nothing |

## Left out

- Floating point: doubles are reals, so rounding, overflow and NaN/∞ propagation are not
  modelled. The exception is the learning-rate check, where NaN and ±∞ are explicit values, and
  the reported average of an empty example list, which is NaN or ±∞.
- `Math.Exp`, `Math.Tanh`, `Math.Sqrt` and `Random` are not defined. Only the facts listed
  above are assumed. For example, tanh is not shown to be odd or increasing.
- Console output: the progress line that `NeuralNetwork.Train` prints every 1000 epochs is not
  modelled. Its `totalLoss` accumulator is not modelled either, because it feeds only that line.
- The wall-clock timestamp in each `TrainingStatistics` record is not modelled.
- Convergence, and how good the trained outputs are, depend on floating-point dynamics and are
  not stated.
- The multi-layer network has no implementation in this model. Backpropagation and
  update-all-layers are function values with shape-only laws. The network is threaded through
  the trainer as a value, and an exception from an update leaves the network as it was before
  that update.
- Null arguments are not modelled except where the code checks for them or dereferences them:
  the network, the examples and the inputs are taken as present.
- WeightInitializers.HeInitializer.InitializeWeight: requires fanIn > 0. The code divides by
  fanIn, giving ±∞ or NaN for fanIn <= 0, which the real model cannot express.
- WeightInitializers.XavierInitializer.InitializeWeight: requires fanIn + fanOut > 0, for the
  same reason.
- Neurons.Neuron.constructor: takes a `nat` size. The code's `Enumerable.Range` throws for a
  negative size.
- Momentum.MomentumTrainer.New: the momentum is a real, so a NaN momentum, which the code also
  leaves unchecked, is not represented.
- GradientDescent.GradientDescentTrainer.RunEpoch: adds an example's loss after its update
  succeeds, where the code adds it before backpropagation. When a later step raises, the code
  discards the epoch's total, so nothing observable differs.
- Momentum.MomentumTrainer.RunEpoch: requires a loss function whenever there are examples. The
  missing-loss NullReference is raised in `Train`, before the first example, as the code does
  at its first call to the loss function.
- The single-input network and the scalar loss that `MomentumTrainer` uses are not in the
  modelled sources. `ScalarNetwork` follows the unit tests in
  NeuralTrainer.Tests/Unit/Domain/NeuralNetworkTests.cs. Its output is the activation of
  input * weight + bias, and its updates are additive. The scalar loss is any pair of functions.
- A few behaviours of the code are easy to overlook, and the model keeps each of them:
  - the loss derivative is (actual - predicted) / n, with no sign flip and no factor 2;
  - `MomentumTrainer.Train` accepts `epochs <= 0` and then does nothing, and its constructor
    does not reject a null loss function or reporter;
  - `Neuron.CalculateGradients` accepts a NaN or infinite output gradient;
  - the gradient-descent trainer's examples carry target vectors, while the scalar
    `TrainingExample` in NeuralTrainer.Domain/Training/TrainingExample.cs has one target.
- GradientDescent.GradientDescentTrainer.New: the only progress reporter modelled is
  `StatisticsProgressReporter`. The console and null reporters are not modelled. The statistics
  list records exactly the (epoch, average loss) calls that any `IProgressReporter` receives.
  The same holds for `Momentum.MomentumTrainer.New`.
- LossFunctions.SquaredErrorLoss: gives 0 for two empty vectors, where the code divides by zero
  and gives NaN. The trainer calls it on two empty vectors only if a forward pass yields no
  outputs. `Lawful` assumes that this never happens, and the code does not show it.
- The tests in NeuralTrainer.Tests/Domain/NeuralNetworkTests.cs call a two-argument
  `NeuralNetwork` constructor that NeuralTrainer.Domain/NeuralNetwork.cs does not have. The
  model follows the one-argument constructor in the source.
