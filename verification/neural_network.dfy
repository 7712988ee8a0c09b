/**
 * The original single-input network: one weight, one bias, a sigmoid output, trained by
 * plain stochastic gradient descent on the squared error, one example at a time.
 */
module SingleNeuronNetwork {
  import opened Wrappers
  import opened Runtime
  import opened ActivationFunctions
  import opened LearningRates
  import opened ScalarNetworks

  /** The two trained parameters. */
  datatype Parameters = Parameters(weight: real, bias: real)

  /** The error times the sigmoid's derivative at the output: (target - output) * output * (1 - output). */
  function OutputGradient(output: real, target: real): real
  {
    (target - output) * SigmoidDerivative(output)
  }

  /** The weight's change for one example: learningRate * outputGradient * input. */
  function WeightStep(learningRate: real, outputGradient: real, input: real): real
  {
    learningRate * outputGradient * input
  }

  /** The bias's change for one example: learningRate * outputGradient. */
  function BiasStep(learningRate: real, outputGradient: real): real
  {
    learningRate * outputGradient
  }

  /** The output for `input`: sigmoid(input * weight + bias). */
  function Output(platform: Platform, p: Parameters, input: real): (o: real)
    ensures 0.0 < o < 1.0
  {
    SigmoidActivate(platform, PreActivation(input, p.weight, p.bias))
  }

  /** One example: the forward pass on the current parameters, then both updates. */
  function SgdStep(learningRate: real, platform: Platform, p: Parameters, example: ScalarExample): (r: Parameters)
  {
    var output := Output(platform, p, example.input);
    var outputGradient := OutputGradient(output, example.target);
    Parameters(p.weight + WeightStep(learningRate, outputGradient, example.input),
               p.bias + BiasStep(learningRate, outputGradient))
  }

  /** The examples of one epoch, in order. */
  function SgdEpoch(learningRate: real, platform: Platform, p: Parameters, examples: seq<ScalarExample>): Parameters
    decreases |examples|
  {
    if |examples| == 0 then p
    else SgdStep(learningRate, platform, SgdEpoch(learningRate, platform, p, examples[..|examples| - 1]), examples[|examples| - 1])
  }

  /** `epochs` epochs, one after the other. */
  function SgdRun(learningRate: real, platform: Platform, p: Parameters, examples: seq<ScalarExample>, epochs: nat): Parameters
  {
    if epochs == 0 then p
    else SgdEpoch(learningRate, platform, SgdRun(learningRate, platform, p, examples, epochs - 1), examples)
  }

  class NeuralNetwork {
    var weight: real
    var bias: real
    const learningRate: real
    const platform: Platform

    constructor Validated(learningRate: real, platform: Platform, weight: real, bias: real)
      ensures this.learningRate == learningRate && this.platform == platform
      ensures this.weight == weight && this.bias == bias
    {
      this.learningRate := learningRate;
      this.platform := platform;
      this.weight := weight;
      this.bias := bias;
    }

    /**
     * The public constructor: rejects a learning rate that is not finite or not in (0, 1],
     * then draws the weight and then the bias from a fresh unseeded generator, each as
     * draw * 2 - 1.
     */
    static method New(learningRate: Double, platform: Platform, entropy: nat -> Draw)
      returns (r: Result<NeuralNetwork, Error>)
      ensures r.Success? <==> ValidateLearningRate(learningRate).Success?
      ensures r.Failure? ==> r.error == ValidateLearningRate(learningRate).error
      ensures r.Success? ==>
                && fresh(r.value)
                && r.value.learningRate == learningRate.value && r.value.platform == platform
                && r.value.weight == entropy(0) * 2.0 - 1.0
                && r.value.bias == entropy(1) * 2.0 - 1.0
                && -1.0 <= r.value.weight < 1.0 && -1.0 <= r.value.bias < 1.0
    {
      var validated := ValidateLearningRate(learningRate);
      if validated.Failure? {
        return Failure(validated.error);
      }
      var random := new Random.Unseeded(entropy);
      var w: real := random.NextDouble();
      var b: real := random.NextDouble();
      var network := new NeuralNetwork.Validated(validated.value, platform, w * 2.0 - 1.0, b * 2.0 - 1.0);
      return Success(network);
    }

    /** The constructor with its default learning rate, which always passes validation. */
    static method NewWithDefaultLearningRate(platform: Platform, entropy: nat -> Draw)
      returns (r: Result<NeuralNetwork, Error>)
      ensures r.Success? && fresh(r.value) && r.value.learningRate == DefaultLearningRate
      ensures r.Success? ==>
                && r.value.platform == platform
                && r.value.weight == entropy(0) * 2.0 - 1.0
                && r.value.bias == entropy(1) * 2.0 - 1.0
                && -1.0 <= r.value.weight < 1.0 && -1.0 <= r.value.bias < 1.0
    {
      r := New(Finite(DefaultLearningRate), platform, entropy);
    }

    /** The weight and the bias as a value. */
    function State(): Parameters
      reads this
    {
      Parameters(weight, bias)
    }

    /** sigmoid(input * weight + bias); reading the parameters changes nothing. */
    function Forward(input: real): (o: real)
      reads this
      ensures o == Output(platform, State(), input)
      ensures 0.0 < o < 1.0
    {
      SigmoidActivate(platform, PreActivation(input, weight, bias))
    }

    /**
     * Runs `epochs` epochs over the examples (none when `epochs <= 0`), each example's
     * update applied before the next example's forward pass.
     */
    method Train(examples: seq<ScalarExample>, epochs: int)
      modifies this`weight, this`bias
      ensures State() == SgdRun(learningRate, platform, old(State()), examples, if epochs <= 0 then 0 else epochs)
    {
      ghost var start := State();
      var epoch := 0;
      while epoch < epochs
        invariant epoch <= if epochs <= 0 then 0 else epochs
        invariant State() == SgdRun(learningRate, platform, start, examples, epoch)
      {
        RunEpoch(examples);
        epoch := epoch + 1;
      }
    }

    /** One epoch: every example in order, each update made before the next forward pass. */
    method RunEpoch(examples: seq<ScalarExample>)
      modifies this`weight, this`bias
      ensures State() == SgdEpoch(learningRate, platform, old(State()), examples)
    {
      ghost var start := State();
      for k := 0 to |examples|
        invariant State() == SgdEpoch(learningRate, platform, start, examples[..k])
      {
        var example := examples[k];
        assert examples[..k + 1][..k] == examples[..k];
        var output := Forward(example.input);
        var outputGradient := OutputGradient(output, example.target);
        weight := weight + WeightStep(learningRate, outputGradient, example.input);
        bias := bias + BiasStep(learningRate, outputGradient);
      }
      assert examples[..|examples|] == examples;
    }
  }

  /**
   * With a positive learning rate, an example leaves the bias where it is exactly when the
   * output already equals the target, and then the weight too; otherwise the bias moves
   * toward the target.
   */
  lemma SgdStepAtTarget(learningRate: real, platform: Platform, p: Parameters, example: ScalarExample)
    requires learningRate > 0.0
    ensures var output := Output(platform, p, example.input);
            var after := SgdStep(learningRate, platform, p, example);
            && (after.bias == p.bias <==> output == example.target)
            && (output == example.target ==> after == p)
            && (output < example.target ==> after.bias > p.bias)
            && (output > example.target ==> after.bias < p.bias)
  {
    var output := Output(platform, p, example.input);
    var d := SigmoidDerivative(output);
    var g := OutputGradient(output, example.target);
    ProductSigns(example.target - output, d);
    ProductSigns(learningRate, g);
    if output > example.target {
      ProductSigns(output - example.target, d);
      assert (output - example.target) * d == -g;
      ProductSigns(learningRate, -g);
      assert learningRate * -g == -(learningRate * g);
    }
    if output == example.target {
      assert g == 0.0;
      assert WeightStep(learningRate, g, example.input) == 0.0;
    }
  }

  /** An example with input 0 never changes the weight. */
  lemma SgdStepZeroInput(learningRate: real, platform: Platform, p: Parameters, example: ScalarExample)
    requires example.input == 0.0
    ensures SgdStep(learningRate, platform, p, example).weight == p.weight
  {
    var g := OutputGradient(Output(platform, p, example.input), example.target);
    assert WeightStep(learningRate, g, 0.0) == 0.0;
  }

  /** Examples whose inputs are all 0 leave the weight unchanged over any number of epochs. */
  lemma {:induction false} SgdRunZeroInputs(learningRate: real, platform: Platform, p: Parameters,
                                            examples: seq<ScalarExample>, epochs: nat)
    requires forall i :: 0 <= i < |examples| ==> examples[i].input == 0.0
    ensures SgdRun(learningRate, platform, p, examples, epochs).weight == p.weight
    decreases epochs
  {
    if epochs > 0 {
      SgdRunZeroInputs(learningRate, platform, p, examples, epochs - 1);
      SgdEpochZeroInputs(learningRate, platform, SgdRun(learningRate, platform, p, examples, epochs - 1), examples);
    }
  }

  lemma {:induction false} SgdEpochZeroInputs(learningRate: real, platform: Platform, p: Parameters,
                                             examples: seq<ScalarExample>)
    requires forall i :: 0 <= i < |examples| ==> examples[i].input == 0.0
    ensures SgdEpoch(learningRate, platform, p, examples).weight == p.weight
    decreases |examples|
  {
    if |examples| > 0 {
      var n := |examples| - 1;
      SgdEpochZeroInputs(learningRate, platform, p, examples[..n]);
      SgdStepZeroInput(learningRate, platform, SgdEpoch(learningRate, platform, p, examples[..n]), examples[n]);
    }
  }

  /** Training on no examples, or for no epochs, leaves the parameters where they were. */
  lemma {:induction false} SgdRunWithoutExamples(learningRate: real, platform: Platform, p: Parameters, epochs: nat)
    ensures SgdRun(learningRate, platform, p, [], epochs) == p
    decreases epochs
  {
    if epochs > 0 {
      SgdRunWithoutExamples(learningRate, platform, p, epochs - 1);
    }
  }
}
