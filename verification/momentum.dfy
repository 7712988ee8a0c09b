/**
 * Gradient descent with momentum on the scalar network: each update adds the
 * learning-rate-scaled gradient to the momentum-scaled previous update, and the previous
 * update is trainer state that outlives a call to `Train`.
 */
module Momentum {
  import opened Wrappers
  import opened Runtime
  import opened ActivationFunctions
  import opened Reporting
  import opened LearningRates
  import opened ScalarNetworks
  import SingleNeuronNetwork

  /** The parameters a step reads and writes: the network's, and the trainer's previous deltas. */
  datatype TrainingState = TrainingState(weight: real, bias: real, previousWeightDelta: real, previousBiasDelta: real)

  /** The fixed inputs of a step: rates, loss, and the network's activation function. */
  datatype StepConfiguration = StepConfiguration(
    learningRate: real,
    momentum: real,
    loss: ScalarLoss,
    activationFunction: ActivationFunction,
    platform: Platform)

  /** The state after one example, and the loss measured before the update. */
  datatype StepResult = StepResult(state: TrainingState, loss: real)

  /** The output gradient: the loss derivative times the activation's derivative at the output. */
  function OutputGradient(errorGradient: real, activationDerivative: real): real
  {
    errorGradient * activationDerivative
  }

  /** The weight's delta: lr * g * x, plus momentum times the previous weight delta. */
  function WeightDelta(learningRate: real, outputGradient: real, input: real, momentum: real, previousDelta: real): real
  {
    learningRate * outputGradient * input + momentum * previousDelta
  }

  /** The bias's delta: lr * g, plus momentum times the previous bias delta. */
  function BiasDelta(learningRate: real, outputGradient: real, momentum: real, previousDelta: real): real
  {
    learningRate * outputGradient + momentum * previousDelta
  }

  /** One example: weight delta lr*g*x + m*previous, bias delta lr*g + m*previous, both applied and remembered. */
  function MomentumStep(c: StepConfiguration, s: TrainingState, example: ScalarExample): (r: StepResult)
    ensures r.state.weight == s.weight + r.state.previousWeightDelta
    ensures r.state.bias == s.bias + r.state.previousBiasDelta
  {
    var output := c.activationFunction.Activate(c.platform, PreActivation(example.input, s.weight, s.bias));
    var outputGradient := OutputGradient(c.loss.derivative(output, example.target), c.activationFunction.Derivative(output));
    var weightDelta := WeightDelta(c.learningRate, outputGradient, example.input, c.momentum, s.previousWeightDelta);
    var biasDelta := BiasDelta(c.learningRate, outputGradient, c.momentum, s.previousBiasDelta);
    StepResult(TrainingState(s.weight + weightDelta, s.bias + biasDelta, weightDelta, biasDelta),
               c.loss.calculate(output, example.target))
  }

  /** The examples in order from `s`, with their losses summed. */
  function MomentumEpoch(c: StepConfiguration, s: TrainingState, examples: seq<ScalarExample>): StepResult
    decreases |examples|
  {
    if |examples| == 0 then StepResult(s, 0.0)
    else
      var before := MomentumEpoch(c, s, examples[..|examples| - 1]);
      var step := MomentumStep(c, before.state, examples[|examples| - 1]);
      StepResult(step.state, before.loss + step.loss)
  }

  /** Where a run stands: the state, the reports so far, and the exception if one was raised. */
  datatype MomentumRun = MomentumRun(state: TrainingState, reports: seq<TrainingStatistics>, error: Option<Error>)

  /**
   * One more epoch of a run that has not raised, numbered `epoch`. A missing loss function
   * raises at the first example; a missing reporter raises at the end of the epoch, after
   * the epoch's updates.
   */
  function NextEpoch(learningRate: real, momentum: real, loss: Option<ScalarLoss>, hasReporter: bool,
                     activationFunction: ActivationFunction, platform: Platform,
                     before: MomentumRun, examples: seq<ScalarExample>, epoch: nat): MomentumRun
  {
    if loss.None? && |examples| > 0 then MomentumRun(before.state, before.reports, Some(NullReference))
    else
      var result :=
        if loss.None? then StepResult(before.state, 0.0)
        else MomentumEpoch(StepConfiguration(learningRate, momentum, loss.value, activationFunction, platform),
                           before.state, examples);
      if !hasReporter then MomentumRun(result.state, before.reports, Some(NullReference))
      else MomentumRun(result.state, before.reports + [TrainingStatistics(epoch, DivideByCount(result.loss, |examples|))], None)
  }

  /** The first `epochs` epochs, stopping at the first exception. */
  function MomentumRunFor(learningRate: real, momentum: real, loss: Option<ScalarLoss>, hasReporter: bool,
                          activationFunction: ActivationFunction, platform: Platform,
                          s: TrainingState, examples: seq<ScalarExample>, epochs: nat): MomentumRun
  {
    if epochs == 0 then MomentumRun(s, [], None)
    else
      var before := MomentumRunFor(learningRate, momentum, loss, hasReporter, activationFunction, platform, s, examples, epochs - 1);
      if before.error.Some? then before
      else NextEpoch(learningRate, momentum, loss, hasReporter, activationFunction, platform, before, examples, epochs - 1)
  }

  class MomentumTrainer {
    const learningRate: real
    const momentum: real
    const lossFunction: Option<ScalarLoss>
    const progressReporter: StatisticsProgressReporter?
    var previousWeightDelta: real
    var previousBiasDelta: real

    constructor Validated(learningRate: real, momentum: real, lossFunction: Option<ScalarLoss>,
                          progressReporter: StatisticsProgressReporter?)
      ensures this.learningRate == learningRate && this.momentum == momentum
      ensures this.lossFunction == lossFunction && this.progressReporter == progressReporter
      ensures previousWeightDelta == 0.0 && previousBiasDelta == 0.0
    {
      this.learningRate := learningRate;
      this.momentum := momentum;
      this.lossFunction := lossFunction;
      this.progressReporter := progressReporter;
      previousWeightDelta := 0.0;
      previousBiasDelta := 0.0;
    }

    /**
     * The public constructor: only the learning rate is checked; the momentum, the loss
     * function and the reporter are stored as given, absent ones included.
     */
    static method New(learningRate: Double, momentum: real, lossFunction: Option<ScalarLoss>,
                      progressReporter: StatisticsProgressReporter?) returns (r: Result<MomentumTrainer, Error>)
      ensures r.Success? <==> ValidateLearningRate(learningRate).Success?
      ensures r.Failure? ==> r.error == ValidateLearningRate(learningRate).error
      ensures r.Success? ==>
                && fresh(r.value)
                && r.value.learningRate == learningRate.value && r.value.momentum == momentum
                && r.value.lossFunction == lossFunction && r.value.progressReporter == progressReporter
                && r.value.previousWeightDelta == 0.0 && r.value.previousBiasDelta == 0.0
    {
      var validated := ValidateLearningRate(learningRate);
      if validated.Failure? {
        return Failure(validated.error);
      }
      var trainer := new MomentumTrainer.Validated(validated.value, momentum, lossFunction, progressReporter);
      return Success(trainer);
    }

    /**
     * Trains for `epochs` epochs (none at all when `epochs <= 0`), carrying the previous
     * deltas over from earlier calls.
     */
    method Train(network: ScalarNetwork, examples: seq<ScalarExample>, epochs: int) returns (status: Outcome<Error>)
      modifies this`previousWeightDelta, this`previousBiasDelta, network`weight, network`bias, progressReporter
      ensures var run := MomentumRunFor(learningRate, momentum, lossFunction, progressReporter != null,
                                        network.activationFunction, network.platform,
                                        old(TrainingState(network.weight, network.bias, previousWeightDelta, previousBiasDelta)),
                                        examples, if epochs <= 0 then 0 else epochs);
              && TrainingState(network.weight, network.bias, previousWeightDelta, previousBiasDelta) == run.state
              && (progressReporter != null ==> progressReporter.statistics == old(progressReporter.statistics) + run.reports)
              && status == (if run.error.Some? then Fail(run.error.value) else Pass)
    {
      ghost var start := TrainingState(network.weight, network.bias, previousWeightDelta, previousBiasDelta);
      ghost var hasReporter := progressReporter != null;
      var count := if epochs <= 0 then 0 else epochs;
      ghost var startStatistics := if progressReporter != null then progressReporter.statistics else [];
      for epoch := 0 to count
        invariant var run := MomentumRunFor(learningRate, momentum, lossFunction, hasReporter, network.activationFunction,
                                            network.platform, start, examples, epoch);
                  && run.error.None?
                  && TrainingState(network.weight, network.bias, previousWeightDelta, previousBiasDelta) == run.state
                  && (progressReporter != null ==> progressReporter.statistics == startStatistics + run.reports)
      {
        ghost var before := MomentumRunFor(learningRate, momentum, lossFunction, hasReporter, network.activationFunction,
                                           network.platform, start, examples, epoch);
        var failed := TrainEpoch(network, examples, epoch, before, startStatistics);
        if failed {
          MomentumRunStops(learningRate, momentum, lossFunction, hasReporter, network.activationFunction,
                           network.platform, start, examples, epoch + 1, count);
          return Fail(NullReference);
        }
      }
      return Pass;
    }

    /** Epoch number `epoch` of `Train`: `NextEpoch` on the trainer, the network and the reporter. */
    method TrainEpoch(network: ScalarNetwork, examples: seq<ScalarExample>, epoch: nat,
                      ghost before: MomentumRun, ghost startStatistics: seq<TrainingStatistics>) returns (failed: bool)
      requires before.error.None?
      requires TrainingState(network.weight, network.bias, previousWeightDelta, previousBiasDelta) == before.state
      requires progressReporter != null ==> progressReporter.statistics == startStatistics + before.reports
      modifies this`previousWeightDelta, this`previousBiasDelta, network`weight, network`bias, progressReporter
      ensures var after := NextEpoch(learningRate, momentum, lossFunction, progressReporter != null,
                                     network.activationFunction, network.platform, before, examples, epoch);
              && failed == after.error.Some?
              && TrainingState(network.weight, network.bias, previousWeightDelta, previousBiasDelta) == after.state
              && (progressReporter != null ==> progressReporter.statistics == startStatistics + after.reports)
    {
      if lossFunction.None? && |examples| > 0 {
        return true;
      }
      var totalLoss := RunEpoch(network, examples);
      if progressReporter == null {
        return true;
      }
      progressReporter.ReportProgress(epoch, DivideByCount(totalLoss, |examples|));
      return false;
    }

    /** One epoch's examples in order, returning the summed loss. */
    method RunEpoch(network: ScalarNetwork, examples: seq<ScalarExample>) returns (totalLoss: real)
      requires lossFunction.Some? || |examples| == 0
      modifies this`previousWeightDelta, this`previousBiasDelta, network`weight, network`bias
      ensures lossFunction.None? ==>
                totalLoss == 0.0 && unchanged(this) && unchanged(network)
      ensures lossFunction.Some? ==>
                var epoch := MomentumEpoch(
                  StepConfiguration(learningRate, momentum, lossFunction.value, network.activationFunction, network.platform),
                  old(TrainingState(network.weight, network.bias, previousWeightDelta, previousBiasDelta)), examples);
                && TrainingState(network.weight, network.bias, previousWeightDelta, previousBiasDelta) == epoch.state
                && totalLoss == epoch.loss
    {
      totalLoss := 0.0;
      if |examples| == 0 {
        return;
      }
      var c := StepConfiguration(learningRate, momentum, lossFunction.value, network.activationFunction, network.platform);
      ghost var start := TrainingState(network.weight, network.bias, previousWeightDelta, previousBiasDelta);
      for k := 0 to |examples|
        invariant MomentumEpoch(c, start, examples[..k])
                  == StepResult(TrainingState(network.weight, network.bias, previousWeightDelta, previousBiasDelta), totalLoss)
      {
        var example := examples[k];
        assert examples[..k + 1][..k] == examples[..k];
        ghost var before := TrainingState(network.weight, network.bias, previousWeightDelta, previousBiasDelta);
        ghost var step := MomentumStep(c, before, example);
        var output := network.Forward(example.input);
        var loss := c.loss.calculate(output, example.target);
        totalLoss := totalLoss + loss;

        var errorGradient := c.loss.derivative(output, example.target);
        var outputGradient := OutputGradient(errorGradient, network.activationFunction.Derivative(output));

        var weightDelta := WeightDelta(learningRate, outputGradient, example.input, momentum, previousWeightDelta);
        var biasDelta := BiasDelta(learningRate, outputGradient, momentum, previousBiasDelta);
        assert step.state == TrainingState(before.weight + weightDelta, before.bias + biasDelta, weightDelta, biasDelta);
        assert step.loss == loss;

        network.UpdateParameters(weightDelta, biasDelta);

        previousWeightDelta := weightDelta;
        previousBiasDelta := biasDelta;
      }
      assert examples[..|examples|] == examples;
    }
  }

  /** Once a run has raised an exception, later epochs change nothing. */
  lemma {:induction false} MomentumRunStops(learningRate: real, momentum: real, loss: Option<ScalarLoss>, hasReporter: bool,
                                            activationFunction: ActivationFunction, platform: Platform,
                                            s: TrainingState, examples: seq<ScalarExample>, failed: nat, epochs: nat)
    requires failed <= epochs
    requires MomentumRunFor(learningRate, momentum, loss, hasReporter, activationFunction, platform, s, examples, failed).error.Some?
    ensures MomentumRunFor(learningRate, momentum, loss, hasReporter, activationFunction, platform, s, examples, epochs)
         == MomentumRunFor(learningRate, momentum, loss, hasReporter, activationFunction, platform, s, examples, failed)
    decreases epochs
  {
    if epochs > failed {
      MomentumRunStops(learningRate, momentum, loss, hasReporter, activationFunction, platform, s, examples, failed, epochs - 1);
    }
  }

  /**
   * The plain step without momentum: the original single-input network's weight and bias
   * steps, driven by this trainer's loss and activation.
   */
  function PlainStep(c: StepConfiguration, s: TrainingState, example: ScalarExample): (r: TrainingState)
  {
    var output := c.activationFunction.Activate(c.platform, PreActivation(example.input, s.weight, s.bias));
    var outputGradient := OutputGradient(c.loss.derivative(output, example.target), c.activationFunction.Derivative(output));
    var weightDelta := SingleNeuronNetwork.WeightStep(c.learningRate, outputGradient, example.input);
    var biasDelta := SingleNeuronNetwork.BiasStep(c.learningRate, outputGradient);
    TrainingState(s.weight + weightDelta, s.bias + biasDelta, weightDelta, biasDelta)
  }

  /** With momentum 0 every step is the plain step, whatever the previous deltas. */
  lemma ZeroMomentumIsPlainStep(c: StepConfiguration, s: TrainingState, example: ScalarExample)
    requires c.momentum == 0.0
    ensures MomentumStep(c, s, example).state == PlainStep(c, s, example)
  {
  }

  /** With no previous deltas, as on a fresh trainer, a step is the plain step whatever the momentum. */
  lemma FirstStepIsPlainStep(c: StepConfiguration, s: TrainingState, example: ScalarExample)
    requires s.previousWeightDelta == 0.0 && s.previousBiasDelta == 0.0
    ensures MomentumStep(c, s, example).state == PlainStep(c, s, example)
  {
  }

  /**
   * The momentum step is the plain step plus the momentum-scaled previous deltas, so the
   * momentum term is exactly what distinguishes the two.
   */
  lemma MomentumStepDecomposes(c: StepConfiguration, s: TrainingState, example: ScalarExample)
    ensures var plain := PlainStep(c, s, example);
            var step := MomentumStep(c, s, example).state;
            && step.previousWeightDelta == plain.previousWeightDelta + c.momentum * s.previousWeightDelta
            && step.previousBiasDelta == plain.previousBiasDelta + c.momentum * s.previousBiasDelta
  {
  }

  /**
   * With momentum 0, the sigmoid activation and the squared-error loss, a momentum step moves
   * the weight and the bias exactly as the original single-input network's update does.
   */
  lemma ZeroMomentumSquaredErrorIsSgdStep(learningRate: real, platform: Platform, s: TrainingState, example: ScalarExample)
    ensures var c := StepConfiguration(learningRate, 0.0, SquaredErrorScalarLoss(), ActivationFunction.Sigmoid, platform);
            var sgd := SingleNeuronNetwork.SgdStep(learningRate, platform, SingleNeuronNetwork.Parameters(s.weight, s.bias), example);
            var step := MomentumStep(c, s, example).state;
            step.weight == sgd.weight && step.bias == sgd.bias
  {
    var c := StepConfiguration(learningRate, 0.0, SquaredErrorScalarLoss(), ActivationFunction.Sigmoid, platform);
    var p := SingleNeuronNetwork.Parameters(s.weight, s.bias);
    var output := SingleNeuronNetwork.Output(platform, p, example.input);
    assert c.activationFunction.Activate(c.platform, PreActivation(example.input, s.weight, s.bias)) == output;
    SquaredErrorScalarLossValues(output, example.target);
    var g := SingleNeuronNetwork.OutputGradient(output, example.target);
    assert c.activationFunction.Derivative(output) == SigmoidDerivative(output);
    assert OutputGradient(c.loss.derivative(output, example.target), c.activationFunction.Derivative(output)) == g;
    DeltasWithoutMomentum(learningRate, g, example.input, s);
  }

  /** With momentum 0 the deltas are the plain learning-rate-scaled steps. */
  lemma DeltasWithoutMomentum(learningRate: real, g: real, input: real, s: TrainingState)
    ensures WeightDelta(learningRate, g, input, 0.0, s.previousWeightDelta) == SingleNeuronNetwork.WeightStep(learningRate, g, input)
    ensures BiasDelta(learningRate, g, 0.0, s.previousBiasDelta) == SingleNeuronNetwork.BiasStep(learningRate, g)
  {
  }

  /** An epoch over `a + b` is an epoch over `a` followed by one over `b`, previous deltas included. */
  lemma {:induction false} MomentumEpochAppend(c: StepConfiguration, s: TrainingState, a: seq<ScalarExample>, b: seq<ScalarExample>)
    ensures MomentumEpoch(c, s, a + b).state == MomentumEpoch(c, MomentumEpoch(c, s, a).state, b).state
    ensures MomentumEpoch(c, s, a + b).loss == MomentumEpoch(c, s, a).loss + MomentumEpoch(c, MomentumEpoch(c, s, a).state, b).loss
    decreases |b|
  {
    if |b| > 0 {
      var n := |b| - 1;
      assert (a + b)[..|a + b| - 1] == a + b[..n];
      assert (a + b)[|a + b| - 1] == b[n];
      MomentumEpochAppend(c, s, a, b[..n]);
    } else {
      assert a + b == a;
    }
  }

  /** The state after each of `epochs` complete epochs, one after the other. */
  function MomentumStates(c: StepConfiguration, s: TrainingState, examples: seq<ScalarExample>, epochs: nat): TrainingState
  {
    if epochs == 0 then s else MomentumEpoch(c, MomentumStates(c, s, examples, epochs - 1), examples).state
  }

  /** Running `first + second` epochs is running `first`, then `second` more from where those stopped. */
  lemma {:induction false} MomentumStatesCompose(c: StepConfiguration, s: TrainingState, examples: seq<ScalarExample>,
                                                 first: nat, second: nat)
    ensures MomentumStates(c, s, examples, first + second)
         == MomentumStates(c, MomentumStates(c, s, examples, first), examples, second)
    decreases second
  {
    if second > 0 {
      MomentumStatesCompose(c, s, examples, first, second - 1);
      assert first + second - 1 == first + (second - 1);
    }
  }

  /**
   * Training for `first` epochs and then, in a second call, for `second` more leaves the
   * network and the previous deltas where one call of `first + second` epochs would: the
   * momentum state carries over between calls.
   */
  lemma MomentumRunsCompose(learningRate: real, momentum: real, loss: ScalarLoss,
                            activationFunction: ActivationFunction, platform: Platform,
                            s: TrainingState, examples: seq<ScalarExample>, first: nat, second: nat)
    ensures var one := MomentumRunFor(learningRate, momentum, Some(loss), true, activationFunction, platform, s, examples, first);
            MomentumRunFor(learningRate, momentum, Some(loss), true, activationFunction, platform, s, examples, first + second).state
            == MomentumRunFor(learningRate, momentum, Some(loss), true, activationFunction, platform, one.state, examples, second).state
  {
    var c := StepConfiguration(learningRate, momentum, loss, activationFunction, platform);
    var one := MomentumRunFor(learningRate, momentum, Some(loss), true, activationFunction, platform, s, examples, first);
    calc {
      MomentumRunFor(learningRate, momentum, Some(loss), true, activationFunction, platform, s, examples, first + second).state;
      { MomentumRunState(learningRate, momentum, loss, activationFunction, platform, s, examples, first + second); }
      MomentumStates(c, s, examples, first + second);
      { MomentumStatesCompose(c, s, examples, first, second);
        MomentumRunState(learningRate, momentum, loss, activationFunction, platform, s, examples, first); }
      MomentumStates(c, one.state, examples, second);
      { MomentumRunState(learningRate, momentum, loss, activationFunction, platform, one.state, examples, second); }
      MomentumRunFor(learningRate, momentum, Some(loss), true, activationFunction, platform, one.state, examples, second).state;
    }
  }

  /** With a loss function and a reporter a run raises nothing and reports every epoch once, in order. */
  lemma {:induction false} MomentumRunNeverFails(learningRate: real, momentum: real, loss: ScalarLoss,
                                                 activationFunction: ActivationFunction, platform: Platform,
                                                 s: TrainingState, examples: seq<ScalarExample>, epochs: nat)
    ensures var run := MomentumRunFor(learningRate, momentum, Some(loss), true, activationFunction, platform, s, examples, epochs);
            && run.error.None?
            && |run.reports| == epochs
            && (forall i :: 0 <= i < epochs ==> run.reports[i].epoch == i)
    decreases epochs
  {
    if epochs > 0 {
      MomentumRunNeverFails(learningRate, momentum, loss, activationFunction, platform, s, examples, epochs - 1);
    }
  }

  /** Such a run ends in the state of that many complete epochs. */
  lemma {:induction false} MomentumRunState(learningRate: real, momentum: real, loss: ScalarLoss,
                                            activationFunction: ActivationFunction, platform: Platform,
                                            s: TrainingState, examples: seq<ScalarExample>, epochs: nat)
    ensures MomentumRunFor(learningRate, momentum, Some(loss), true, activationFunction, platform, s, examples, epochs).state
         == MomentumStates(StepConfiguration(learningRate, momentum, loss, activationFunction, platform), s, examples, epochs)
    decreases epochs
  {
    if epochs > 0 {
      MomentumRunState(learningRate, momentum, loss, activationFunction, platform, s, examples, epochs - 1);
      MomentumRunNeverFails(learningRate, momentum, loss, activationFunction, platform, s, examples, epochs - 1);
    }
  }

  /** The report of epoch `i` of a run with a loss function: its number and its summed loss over the example count. */
  function MomentumEpochReport(c: StepConfiguration, s: TrainingState, examples: seq<ScalarExample>, i: nat): TrainingStatistics
  {
    TrainingStatistics(i, DivideByCount(MomentumEpoch(c, MomentumStates(c, s, examples, i), examples).loss, |examples|))
  }

  /**
   * With a loss function and a reporter, report `i` is the record of epoch `i`: its number, and
   * that epoch's summed loss divided by the number of examples.
   */
  lemma {:induction false} MomentumRunReportsRecords(learningRate: real, momentum: real, loss: ScalarLoss,
                                                     activationFunction: ActivationFunction, platform: Platform,
                                                     s: TrainingState, examples: seq<ScalarExample>, epochs: nat)
    ensures var run := MomentumRunFor(learningRate, momentum, Some(loss), true, activationFunction, platform, s, examples, epochs);
            forall i :: 0 <= i < |run.reports| ==>
              run.reports[i] == MomentumEpochReport(StepConfiguration(learningRate, momentum, loss, activationFunction, platform),
                                                    s, examples, i)
    decreases epochs
  {
    if epochs > 0 {
      var c := StepConfiguration(learningRate, momentum, loss, activationFunction, platform);
      var before := MomentumRunFor(learningRate, momentum, Some(loss), true, activationFunction, platform, s, examples, epochs - 1).reports;
      var after := MomentumRunFor(learningRate, momentum, Some(loss), true, activationFunction, platform, s, examples, epochs).reports;
      MomentumRunReportsStep(learningRate, momentum, loss, activationFunction, platform, s, examples, epochs);
      forall i | 0 <= i < |after|
        ensures after[i] == MomentumEpochReport(c, s, examples, i)
      {
        if i < |before| {
          MomentumRunReportsRecords(learningRate, momentum, loss, activationFunction, platform, s, examples, epochs - 1);
          assert after[i] == before[i];
        }
      }
    }
  }

  /** Each epoch of such a run appends its own report to the reports so far. */
  lemma MomentumRunReportsStep(learningRate: real, momentum: real, loss: ScalarLoss,
                               activationFunction: ActivationFunction, platform: Platform,
                               s: TrainingState, examples: seq<ScalarExample>, epochs: nat)
    requires epochs > 0
    ensures var before := MomentumRunFor(learningRate, momentum, Some(loss), true, activationFunction, platform, s, examples, epochs - 1);
            MomentumRunFor(learningRate, momentum, Some(loss), true, activationFunction, platform, s, examples, epochs).reports
            == before.reports + [MomentumEpochReport(StepConfiguration(learningRate, momentum, loss, activationFunction, platform),
                                                     s, examples, |before.reports|)]
  {
    var c := StepConfiguration(learningRate, momentum, loss, activationFunction, platform);
    var before := MomentumRunFor(learningRate, momentum, Some(loss), true, activationFunction, platform, s, examples, epochs - 1);
    MomentumRunLength(learningRate, momentum, loss, activationFunction, platform, s, examples, epochs - 1);
    MomentumRunState(learningRate, momentum, loss, activationFunction, platform, s, examples, epochs - 1);
    NextEpochAppendsReport(c, s, examples, before, epochs - 1);
  }

  /** From the state after `k` epochs, one more epoch appends the report of epoch `k`. */
  lemma NextEpochAppendsReport(c: StepConfiguration, s: TrainingState, examples: seq<ScalarExample>,
                               before: MomentumRun, k: nat)
    requires before.error.None? && before.state == MomentumStates(c, s, examples, k)
    ensures NextEpoch(c.learningRate, c.momentum, Some(c.loss), true, c.activationFunction, c.platform, before, examples, k).reports
            == before.reports + [MomentumEpochReport(c, s, examples, k)]
  {
  }

  /** Such a run ends without an error and with one report per epoch. */
  lemma MomentumRunLength(learningRate: real, momentum: real, loss: ScalarLoss,
                          activationFunction: ActivationFunction, platform: Platform,
                          s: TrainingState, examples: seq<ScalarExample>, epochs: nat)
    ensures var run := MomentumRunFor(learningRate, momentum, Some(loss), true, activationFunction, platform, s, examples, epochs);
            run.error.None? && |run.reports| == epochs
  {
    MomentumRunNeverFails(learningRate, momentum, loss, activationFunction, platform, s, examples, epochs);
  }

  /** The reports of such a run are numbered 0, 1, ..., in order. */
  lemma MomentumRunReportsEpochs(learningRate: real, momentum: real, loss: ScalarLoss,
                                 activationFunction: ActivationFunction, platform: Platform,
                                 s: TrainingState, examples: seq<ScalarExample>, epochs: nat)
    ensures Epochs(MomentumRunFor(learningRate, momentum, Some(loss), true, activationFunction, platform, s, examples, epochs).reports)
         == EpochRange(epochs)
  {
    MomentumRunNeverFails(learningRate, momentum, loss, activationFunction, platform, s, examples, epochs);
  }
}
