/**
 * A single neuron: a weight per input, a bias, an activation function, and the
 * pre-activation and output of the last forward pass, cached for the gradient.
 */
module Neurons {
  import opened Wrappers
  import opened Runtime
  import opened ActivationFunctions
  import opened WeightInitializers

  const InputSizeMismatchMessage: string := "Input size mismatch."
  const WeightSizeMismatchMessage: string := "Weight size mismatch."

  /** Σ inputs[i] * weights[i], accumulated from the front as the forward loop does. */
  function WeightedSum(inputs: seq<real>, weights: seq<real>): real
    requires |inputs| == |weights|
    decreases |inputs|
  {
    if |inputs| == 0 then 0.0
    else
      var n := |inputs| - 1;
      WeightedSum(inputs[..n], weights[..n]) + inputs[n] * weights[n]
  }

  /** The element-wise sum of a weight vector and a vector of deltas. */
  function AddDeltas(weights: seq<real>, deltas: seq<real>): (r: seq<real>)
    requires |weights| == |deltas|
    ensures |r| == |weights|
  {
    seq(|weights|, i requires 0 <= i < |weights| => weights[i] + deltas[i])
  }

  /** Every element of `v` multiplied by `c`. */
  function Scale(c: real, v: seq<real>): (r: seq<real>)
    ensures |r| == |v|
  {
    seq(|v|, i requires 0 <= i < |v| => c * v[i])
  }

  /** Σ inputs[i]², the squared length of an input vector. */
  function SquaredNorm(inputs: seq<real>): (s: real)
    decreases |inputs|
  {
    if |inputs| == 0 then 0.0
    else SquaredNorm(inputs[..|inputs| - 1]) + inputs[|inputs| - 1] * inputs[|inputs| - 1]
  }

  class Neuron {
    var weights: seq<real>
    var bias: real
    const activationFunction: ActivationFunction
    const platform: Platform
    var lastOutput: real
    var lastPreActivation: real

    /**
     * Draws one weight per input and then the bias from the initializer, in that order,
     * through the interface's default fan sizes (1, 1).
     */
    constructor (inputSize: nat, activationFunction: ActivationFunction, platform: Platform,
                 weightInitializer: WeightInitializer)
      modifies weightInitializer.Source()
      ensures this.activationFunction == activationFunction && this.platform == platform
      ensures |weights| == inputSize
      ensures forall i :: 0 <= i < inputSize ==>
                weights[i] == weightInitializer.WeightFrom(1, 1,
                  weightInitializer.Source().stream(old(weightInitializer.Source().position) + i))
      ensures bias == weightInitializer.BiasFrom(
                weightInitializer.Source().stream(old(weightInitializer.Source().position) + inputSize))
      ensures weightInitializer.Source().position
              == old(weightInitializer.Source().position) + inputSize + weightInitializer.BiasDraws()
      ensures lastOutput == 0.0 && lastPreActivation == 0.0
    {
      var source := weightInitializer.Source();
      var start := source.position;
      var drawn: seq<real> := [];
      while |drawn| < inputSize
        invariant |drawn| <= inputSize
        invariant source.position == start + |drawn|
        invariant forall i :: 0 <= i < |drawn| ==> drawn[i] == weightInitializer.WeightFrom(1, 1, source.stream(start + i))
      {
        var w := weightInitializer.InitializeWeight(1, 1);
        drawn := drawn + [w];
      }
      var b := weightInitializer.InitializeBias();
      weights := drawn;
      bias := b;
      this.activationFunction := activationFunction;
      this.platform := platform;
      lastOutput := 0.0;
      lastPreActivation := 0.0;
    }

    /** The output the neuron computes for `inputs` with its present weights and bias. */
    function Output(inputs: seq<real>): real
      requires |inputs| == |weights|
      reads this
    {
      activationFunction.Activate(platform, bias + WeightedSum(inputs, weights))
    }

    /**
     * Computes the activation of bias + Σ inputs[i] * weights[i], caching the
     * pre-activation and the output; a wrong-length input is rejected before anything changes.
     */
    method Forward(inputs: seq<real>) returns (r: Result<real, Error>)
      modifies this`lastPreActivation, this`lastOutput
      ensures |inputs| != |weights| ==>
                r == Failure(Argument(InputSizeMismatchMessage))
                && lastPreActivation == old(lastPreActivation) && lastOutput == old(lastOutput)
      ensures |inputs| == |weights| ==>
                && lastPreActivation == bias + WeightedSum(inputs, weights)
                && lastOutput == Output(inputs)
                && r == Success(lastOutput)
    {
      if |inputs| != |weights| {
        return Failure(Argument(InputSizeMismatchMessage));
      }
      lastPreActivation := bias;
      for i := 0 to |inputs|
        invariant lastPreActivation == bias + WeightedSum(inputs[..i], weights[..i])
      {
        lastPreActivation := lastPreActivation + inputs[i] * weights[i];
        assert inputs[..i + 1][..i] == inputs[..i] && weights[..i + 1][..i] == weights[..i];
      }
      assert inputs[..|inputs|] == inputs && weights[..|weights|] == weights;
      lastOutput := activationFunction.Activate(platform, lastPreActivation);
      return Success(lastOutput);
    }

    /**
     * The neuron gradient is the output gradient times the activation's derivative at the
     * cached output; each weight's gradient is that times its input. Nothing changes.
     */
    method CalculateGradients(inputs: seq<real>, outputGradient: real)
      returns (weightGradients: seq<real>, biasGradient: real)
      ensures biasGradient == outputGradient * activationFunction.Derivative(lastOutput)
      ensures weightGradients == Scale(biasGradient, inputs)
    {
      biasGradient := outputGradient * activationFunction.Derivative(lastOutput);
      var gradients := new real[|inputs|];
      for i := 0 to |inputs|
        invariant forall k :: 0 <= k < i ==> gradients[k] == biasGradient * inputs[k]
      {
        gradients[i] := biasGradient * inputs[i];
      }
      weightGradients := gradients[..];
      assert forall k :: 0 <= k < |inputs| ==> weightGradients[k] == Scale(biasGradient, inputs)[k];
    }

    /**
     * Adds the deltas to the weights and the bias delta to the bias; a delta vector of the
     * wrong length is rejected before anything changes.
     */
    method UpdateParameters(weightDeltas: seq<real>, biasDelta: real) returns (status: Outcome<Error>)
      modifies this`weights, this`bias
      ensures |weightDeltas| != |old(weights)| ==>
                status == Fail(Argument(WeightSizeMismatchMessage))
                && weights == old(weights) && bias == old(bias)
      ensures |weightDeltas| == |old(weights)| ==>
                status == Pass
                && weights == AddDeltas(old(weights), weightDeltas) && bias == old(bias) + biasDelta
    {
      if |weightDeltas| != |weights| {
        return Fail(Argument(WeightSizeMismatchMessage));
      }
      for i := 0 to |weights|
        invariant |weights| == |old(weights)| && bias == old(bias)
        invariant forall k :: 0 <= k < i ==> weights[k] == old(weights)[k] + weightDeltas[k]
        invariant forall k :: i <= k < |weights| ==> weights[k] == old(weights)[k]
      {
        weights := weights[i := weights[i] + weightDeltas[i]];
      }
      assert forall k :: 0 <= k < |weights| ==> weights[k] == AddDeltas(old(weights), weightDeltas)[k];
      bias := bias + biasDelta;
      return Pass;
    }
  }

  /** The weighted sum is additive in the weights. */
  lemma {:induction false} WeightedSumAdditive(inputs: seq<real>, weights: seq<real>, deltas: seq<real>)
    requires |inputs| == |weights| == |deltas|
    ensures WeightedSum(inputs, AddDeltas(weights, deltas)) == WeightedSum(inputs, weights) + WeightedSum(inputs, deltas)
    decreases |inputs|
  {
    if |inputs| > 0 {
      var n := |inputs| - 1;
      WeightedSumAdditive(inputs[..n], weights[..n], deltas[..n]);
      assert AddDeltas(weights, deltas)[..n] == AddDeltas(weights[..n], deltas[..n]);
      assert inputs[n] * (weights[n] + deltas[n]) == inputs[n] * weights[n] + inputs[n] * deltas[n];
    }
  }

  /**
   * Two successive updates leave the weights where one update with the summed deltas does,
   * and applying them in the other order gives the same weights.
   */
  lemma UpdatesCompose(weights: seq<real>, first: seq<real>, second: seq<real>)
    requires |weights| == |first| == |second|
    ensures AddDeltas(AddDeltas(weights, first), second) == AddDeltas(weights, AddDeltas(first, second))
    ensures AddDeltas(AddDeltas(weights, first), second) == AddDeltas(AddDeltas(weights, second), first)
  {
    assert forall k :: 0 <= k < |weights| ==>
      AddDeltas(AddDeltas(weights, first), second)[k] == AddDeltas(weights, AddDeltas(first, second))[k];
    assert forall k :: 0 <= k < |weights| ==>
      AddDeltas(AddDeltas(weights, first), second)[k] == AddDeltas(AddDeltas(weights, second), first)[k];
  }

  /** Weighting the inputs by a multiple of themselves gives that multiple of their squared length. */
  lemma {:induction false} WeightedSumOfScaledInputs(c: real, inputs: seq<real>)
    ensures WeightedSum(inputs, Scale(c, inputs)) == c * SquaredNorm(inputs)
    decreases |inputs|
  {
    if |inputs| > 0 {
      var n := |inputs| - 1;
      var x := inputs[n];
      calc {
        WeightedSum(inputs, Scale(c, inputs));
        WeightedSum(inputs[..n], Scale(c, inputs)[..n]) + x * (c * x);
        { assert forall k :: 0 <= k < n ==> Scale(c, inputs)[..n][k] == Scale(c, inputs[..n])[k];
          assert Scale(c, inputs)[..n] == Scale(c, inputs[..n]); }
        WeightedSum(inputs[..n], Scale(c, inputs[..n])) + x * (c * x);
        { WeightedSumOfScaledInputs(c, inputs[..n]); }
        c * SquaredNorm(inputs[..n]) + x * (c * x);
        { assert x * (c * x) == c * (x * x); }
        c * SquaredNorm(inputs[..n]) + c * (x * x);
        c * (SquaredNorm(inputs[..n]) + x * x);
      }
    }
  }

  lemma {:induction false} SquaredNormNonNegative(inputs: seq<real>)
    ensures SquaredNorm(inputs) >= 0.0
    decreases |inputs|
  {
    if |inputs| > 0 {
      var n := |inputs| - 1;
      SquaredNormNonNegative(inputs[..n]);
      ProductSigns(inputs[n], inputs[n]);
    }
  }

  /**
   * Applying deltas moves the pre-activation on any input by the weighted sum of the
   * weight deltas plus the bias delta.
   */
  lemma UpdateShiftsPreActivation(inputs: seq<real>, weights: seq<real>, bias: real,
                                  weightDeltas: seq<real>, biasDelta: real)
    requires |inputs| == |weights| == |weightDeltas|
    ensures (bias + biasDelta) + WeightedSum(inputs, AddDeltas(weights, weightDeltas))
         == (bias + WeightedSum(inputs, weights)) + (biasDelta + WeightedSum(inputs, weightDeltas))
  {
    WeightedSumAdditive(inputs, weights, weightDeltas);
  }

  /**
   * A gradient step: with the deltas set to the gradients the neuron computes for `inputs`,
   * scaled by a learning rate, the pre-activation on those inputs moves by
   * rate * neuron gradient * (1 + Σ inputs[i]²), so in the direction of the neuron gradient.
   */
  lemma GradientStepMovesPreActivation(inputs: seq<real>, weights: seq<real>, bias: real,
                                       learningRate: real, neuronGradient: real)
    requires |inputs| == |weights|
    requires learningRate > 0.0
    ensures var c := learningRate * neuronGradient;
            var after := (bias + c) + WeightedSum(inputs, AddDeltas(weights, Scale(c, inputs)));
            var before := bias + WeightedSum(inputs, weights);
            && after == before + c * (1.0 + SquaredNorm(inputs))
            && (neuronGradient > 0.0 ==> after > before)
            && (neuronGradient < 0.0 ==> after < before)
            && (neuronGradient == 0.0 ==> after == before)
  {
    var c := learningRate * neuronGradient;
    UpdateShiftsPreActivation(inputs, weights, bias, Scale(c, inputs), c);
    WeightedSumOfScaledInputs(c, inputs);
    SquaredNormNonNegative(inputs);
    var k := 1.0 + SquaredNorm(inputs);
    assert c + c * SquaredNorm(inputs) == c * k;
    ProductSigns(learningRate, neuronGradient);
    if neuronGradient > 0.0 {
      ProductSigns(c, k);
    } else if neuronGradient < 0.0 {
      ProductSigns(learningRate, -neuronGradient);
      ProductSigns(-c, k);
      assert (-c) * k == -(c * k);
    }
  }
}
