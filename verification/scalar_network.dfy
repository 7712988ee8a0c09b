/**
 * The single-input, single-weight network and the scalar loss that the momentum trainer
 * drives. Their classes are not among the modelled files; their behaviour here is the one
 * the unit tests pin down: the weight and then the bias are drawn from the initializer,
 * the output is the activation of input * weight + bias, and updates add to the parameters.
 */
module ScalarNetworks {
  import opened Runtime
  import opened ActivationFunctions
  import opened WeightInitializers
  import opened LossFunctions

  /** One example: a single input and the output expected for it. */
  datatype ScalarExample = ScalarExample(input: real, target: real)

  /** A loss over one prediction and one target: its value and its derivative. */
  datatype ScalarLoss = ScalarLoss(calculate: (real, real) -> real, derivative: (real, real) -> real)

  /** The squared-error loss applied to one-element vectors. */
  function SquaredErrorScalarLoss(): (loss: ScalarLoss)
  {
    ScalarLoss((predicted, actual) => MeanSquaredError([predicted], [actual]),
               (predicted, actual) => ErrorGradient([predicted], [actual])[0])
  }

  /** On one element the squared-error loss is the squared difference, and its derivative the difference. */
  lemma SquaredErrorScalarLossValues(predicted: real, actual: real)
    ensures SquaredErrorScalarLoss().calculate(predicted, actual) == Square(actual - predicted)
    ensures SquaredErrorScalarLoss().derivative(predicted, actual) == actual - predicted
    ensures SquaredErrorScalarLoss().calculate(predicted, actual) == 0.0 <==> predicted == actual
  {
    assert [predicted][..0] == [] && [actual][..0] == [];
    assert SumSquaredError([predicted], [actual]) == Square(actual - predicted);
    assert MeanSquaredError([predicted], [actual]) == Square(actual - predicted) / 1.0;
    SquarePositive(actual - predicted);
  }

  /** The network's pre-activation: input * weight + bias. */
  function PreActivation(input: real, weight: real, bias: real): real
  {
    input * weight + bias
  }

  class ScalarNetwork {
    var weight: real
    var bias: real
    const activationFunction: ActivationFunction
    const platform: Platform

    /** Draws the weight and then the bias, with the interface's default fan sizes (1, 1). */
    constructor (activationFunction: ActivationFunction, platform: Platform, weightInitializer: WeightInitializer)
      modifies weightInitializer.Source()
      ensures this.activationFunction == activationFunction && this.platform == platform
      ensures weight == weightInitializer.WeightFrom(1, 1, weightInitializer.Source().stream(old(weightInitializer.Source().position)))
      ensures bias == weightInitializer.BiasFrom(weightInitializer.Source().stream(old(weightInitializer.Source().position) + 1))
      ensures weightInitializer.Source().position == old(weightInitializer.Source().position) + 1 + weightInitializer.BiasDraws()
    {
      var w := weightInitializer.InitializeWeight(1, 1);
      var b := weightInitializer.InitializeBias();
      weight := w;
      bias := b;
      this.activationFunction := activationFunction;
      this.platform := platform;
    }

    /**
     * The activation of input * weight + bias, applied once; its range is the activation's:
     * (0, 1) for sigmoid, [-1, 1] for tanh, and at least both 0 and the pre-activation for ReLU.
     */
    function Forward(input: real): (r: real)
      reads this
      ensures r == activationFunction.Activate(platform, PreActivation(input, weight, bias))
      ensures activationFunction.Sigmoid? ==> 0.0 < r < 1.0
      ensures activationFunction.Tanh? ==> -1.0 <= r <= 1.0
      ensures activationFunction.ReLU? ==> r >= 0.0 && r >= PreActivation(input, weight, bias)
    {
      activationFunction.Activate(platform, PreActivation(input, weight, bias))
    }

    method UpdateParameters(weightDelta: real, biasDelta: real)
      modifies this`weight, this`bias
      ensures weight == old(weight) + weightDelta && bias == old(bias) + biasDelta
    {
      weight := weight + weightDelta;
      bias := bias + biasDelta;
    }
  }
}
