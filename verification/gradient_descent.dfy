/**
 * Stochastic gradient descent over a multi-layer network: for every epoch, for every example
 * in order, a forward pass, the loss and its gradient, backpropagation, and an update of every
 * layer by the learning-rate-scaled gradients; one progress report per epoch.
 */
module GradientDescent {
  import opened Wrappers
  import opened Runtime
  import opened LossFunctions
  import opened Neurons
  import opened NetworkContract
  import opened Reporting
  import opened LearningRates

  const EpochsMessage: string := "Number of epochs must be positive."

  /** One example: the network's inputs and the outputs it should produce. */
  datatype TrainingExample = TrainingExample(inputs: seq<real>, targets: seq<real>)

  /** The updates for every neuron of every layer: each gradient scaled by the learning rate. */
  function ScaledUpdates(learningRate: real, gradients: seq<seq<NeuronGradient>>): (updates: seq<seq<NeuronUpdate>>)
  {
    seq(|gradients|, l requires 0 <= l < |gradients| =>
      seq(|gradients[l]|, k requires 0 <= k < |gradients[l]| =>
        NeuronUpdate(Scale(learningRate, gradients[l][k].weightGradients), learningRate * gradients[l][k].biasGradient)))
  }

  /** The updates have the gradients' shape: as many layers, neurons per layer and weights per neuron. */
  lemma ScaledUpdatesShape(learningRate: real, gradients: seq<seq<NeuronGradient>>)
    ensures UpdateShape(ScaledUpdates(learningRate, gradients)) == GradientShape(gradients)
  {
    var updateShape := UpdateShape(ScaledUpdates(learningRate, gradients));
    var gradientShape := GradientShape(gradients);
    forall l | 0 <= l < |gradients|
      ensures updateShape[l] == gradientShape[l]
    {
      assert |updateShape[l]| == |gradientShape[l]|;
    }
  }

  /** Builds the update lists layer by layer and neuron by neuron, as the training loop does. */
  method ScaleGradients(learningRate: real, gradients: seq<seq<NeuronGradient>>)
    returns (layerUpdates: seq<seq<NeuronUpdate>>)
    ensures UpdateShape(layerUpdates) == GradientShape(gradients)
    ensures forall l, k, i :: 0 <= l < |gradients| && 0 <= k < |gradients[l]| && 0 <= i < |gradients[l][k].weightGradients| ==>
              layerUpdates[l][k].weightDeltas[i] == learningRate * gradients[l][k].weightGradients[i]
    ensures forall l, k :: 0 <= l < |gradients| && 0 <= k < |gradients[l]| ==>
              layerUpdates[l][k].biasDelta == learningRate * gradients[l][k].biasGradient
    ensures layerUpdates == ScaledUpdates(learningRate, gradients)
  {
    ghost var spec := ScaledUpdates(learningRate, gradients);
    layerUpdates := [];
    for l := 0 to |gradients|
      invariant |layerUpdates| == l
      invariant forall j :: 0 <= j < l ==> layerUpdates[j] == spec[j]
    {
      var updates: seq<NeuronUpdate> := [];
      for k := 0 to |gradients[l]|
        invariant |updates| == k
        invariant forall j :: 0 <= j < k ==> updates[j] == spec[l][j]
      {
        var gradient := gradients[l][k];
        var weightDeltas := Scale(learningRate, gradient.weightGradients);
        updates := updates + [NeuronUpdate(weightDeltas, learningRate * gradient.biasGradient)];
      }
      layerUpdates := layerUpdates + [updates];
    }
    ScaledUpdatesShape(learningRate, gradients);
  }

  /** The network after one example, and the loss measured on it before the update. */
  datatype Step<N> = Step(network: N, loss: real)

  /** One example: forward pass, loss, error gradients, backpropagation, scaled update. */
  function ExampleStep<N(!new)>(ops: NetworkOperations<N>, loss: LossFunction, learningRate: real, network: N,
                                example: TrainingExample): (r: Result<Step<N>, Error>)
    requires Lawful(ops)
  {
    match ops.forward(network, example.inputs)
    case Failure(e) => Failure(e)
    case Success(outputs) =>
      match loss.calculate(outputs, example.targets)
      case Failure(e) => Failure(e)
      case Success(value) =>
        match loss.derivative(outputs, example.targets)
        case Failure(e) => Failure(e)
        case Success(errorGradients) =>
          match ops.backpropagate(network, example.inputs, errorGradients)
          case Failure(e) => Failure(e)
          case Success(gradients) =>
            match ops.updateAllLayers(network, ScaledUpdates(learningRate, gradients))
            case Failure(e) => Failure(e)
            case Success(updated) => Success(Step(updated, value))
  }

  /** Where an epoch stands: the network, the loss summed so far, and the exception if one was raised. */
  datatype EpochState<N> = EpochState(network: N, totalLoss: real, error: Option<Error>)

  /** One more example of an epoch that has not raised; an exception is kept and stops the epoch. */
  function AdvanceEpoch<N(!new)>(ops: NetworkOperations<N>, loss: LossFunction, learningRate: real, before: EpochState<N>,
                                 example: TrainingExample): EpochState<N>
    requires Lawful(ops)
  {
    if before.error.Some? then before
    else
      match ExampleStep(ops, loss, learningRate, before.network, example)
      case Failure(e) => EpochState(before.network, before.totalLoss, Some(e))
      case Success(step) => EpochState(step.network, before.totalLoss + step.loss, None)
  }

  /** Runs the examples, in order, from the state `s`; an exception stops the epoch where it was raised. */
  function ContinueEpoch<N(!new)>(ops: NetworkOperations<N>, loss: LossFunction, learningRate: real, s: EpochState<N>,
                                  examples: seq<TrainingExample>): EpochState<N>
    requires Lawful(ops)
    decreases |examples|
  {
    if |examples| == 0 then s
    else AdvanceEpoch(ops, loss, learningRate, ContinueEpoch(ops, loss, learningRate, s, examples[..|examples| - 1]), examples[|examples| - 1])
  }

  function Epoch<N(!new)>(ops: NetworkOperations<N>, loss: LossFunction, learningRate: real, network: N,
                          examples: seq<TrainingExample>): EpochState<N>
    requires Lawful(ops)
  {
    ContinueEpoch(ops, loss, learningRate, EpochState(network, 0.0, None), examples)
  }

  /** Where a run stands: the network, the reports made so far, and the exception if one was raised. */
  datatype RunState<N> = RunState(network: N, reports: seq<TrainingStatistics>, error: Option<Error>)

  /** Epoch number `epoch` of a run that has not raised, ending with a report of its average loss. */
  function AdvanceRun<N(!new)>(ops: NetworkOperations<N>, loss: LossFunction, learningRate: real, before: RunState<N>,
                               examples: seq<TrainingExample>, epoch: nat): RunState<N>
    requires Lawful(ops)
  {
    if before.error.Some? then before
    else
      var result := Epoch(ops, loss, learningRate, before.network, examples);
      if result.error.Some? then RunState(result.network, before.reports, result.error)
      else RunState(result.network, before.reports + [TrainingStatistics(epoch, DivideByCount(result.totalLoss, |examples|))], None)
  }

  /** The first `epochs` epochs of a run, stopping at the first exception. */
  function Run<N(!new)>(ops: NetworkOperations<N>, loss: LossFunction, learningRate: real, network: N,
                        examples: seq<TrainingExample>, epochs: nat): RunState<N>
    requires Lawful(ops)
  {
    if epochs == 0 then RunState(network, [], None)
    else AdvanceRun(ops, loss, learningRate, Run(ops, loss, learningRate, network, examples, epochs - 1), examples, epochs - 1)
  }

  /** The trainer's configuration, fixed at construction. */
  datatype GradientDescentTrainer = GradientDescentTrainer(
    learningRate: real,
    lossFunction: LossFunction,
    progressReporter: StatisticsProgressReporter)
  {
    /**
     * The constructor: the learning rate is checked first, then the loss function and the
     * reporter must be present.
     */
    static function New(learningRate: Double, lossFunction: Option<LossFunction>,
                        progressReporter: StatisticsProgressReporter?): (r: Result<GradientDescentTrainer, Error>)
      ensures r.Success? <==>
                ValidateLearningRate(learningRate).Success? && lossFunction.Some? && progressReporter != null
      ensures r.Success? ==>
                r.value == GradientDescentTrainer(learningRate.value, lossFunction.value, progressReporter)
      ensures ValidateLearningRate(learningRate).Failure? ==> r == Failure(ValidateLearningRate(learningRate).error)
      ensures ValidateLearningRate(learningRate).Success? && lossFunction.None? ==>
                r == Failure(ArgumentNull("lossFunction"))
      ensures ValidateLearningRate(learningRate).Success? && lossFunction.Some? && progressReporter == null ==>
                r == Failure(ArgumentNull("progressReporter"))
    {
      match ValidateLearningRate(learningRate)
      case Failure(e) => Failure(e)
      case Success(rate) =>
        if lossFunction.None? then Failure(ArgumentNull("lossFunction"))
        else if progressReporter == null then Failure(ArgumentNull("progressReporter"))
        else Success(GradientDescentTrainer(rate, lossFunction.value, progressReporter))
    }

    /**
     * Trains the network for `epochs` epochs and returns it. A non-positive epoch count is
     * rejected before anything happens; an exception raised during the run ends it, leaving the
     * network as far as it got and the reports of the epochs that completed.
     */
    method Train<N(!new)>(ops: NetworkOperations<N>, network: N, examples: seq<TrainingExample>, epochs: int)
      returns (trained: N, status: Outcome<Error>)
      requires Lawful(ops)
      modifies progressReporter
      ensures epochs <= 0 ==>
                && status == Fail(ArgumentOutOfRange("epochs", EpochsMessage))
                && trained == network
                && progressReporter.statistics == old(progressReporter.statistics)
      ensures epochs > 0 ==>
                var run := Run(ops, lossFunction, learningRate, network, examples, epochs);
                && trained == run.network
                && progressReporter.statistics == old(progressReporter.statistics) + run.reports
                && status == (if run.error.Some? then Fail(run.error.value) else Pass)
    {
      if epochs <= 0 {
        return network, Fail(ArgumentOutOfRange("epochs", EpochsMessage));
      }
      trained := network;
      ghost var startStatistics := progressReporter.statistics;
      for epoch := 0 to epochs
        invariant var run := Run(ops, lossFunction, learningRate, network, examples, epoch);
                  && run.error.None?
                  && trained == run.network
                  && progressReporter.statistics == startStatistics + run.reports
      {
        ghost var before := Run(ops, lossFunction, learningRate, network, examples, epoch);
        var failure;
        trained, failure := TrainEpoch(ops, trained, examples, epoch, before, startStatistics);
        RunStep(ops, lossFunction, learningRate, network, examples, epoch);
        if failure.Some? {
          RunAfterError(ops, lossFunction, learningRate, network, examples, epoch + 1, epochs);
          return trained, Fail(failure.value);
        }
      }
      return trained, Pass;
    }

    /** Epoch number `epoch` of `Train`: one `AdvanceRun` on the network and the reporter. */
    method TrainEpoch<N(!new)>(ops: NetworkOperations<N>, network: N, examples: seq<TrainingExample>, epoch: nat,
                               ghost before: RunState<N>, ghost startStatistics: seq<TrainingStatistics>)
      returns (trained: N, failure: Option<Error>)
      requires Lawful(ops)
      requires before.error.None? && network == before.network
      requires progressReporter.statistics == startStatistics + before.reports
      modifies progressReporter
      ensures var after := AdvanceRun(ops, lossFunction, learningRate, before, examples, epoch);
              && trained == after.network
              && failure == after.error
              && progressReporter.statistics == startStatistics + after.reports
    {
      var state := RunEpoch(ops, network, examples);
      if state.error.Some? {
        return state.network, state.error;
      }
      progressReporter.ReportProgress(epoch, DivideByCount(state.totalLoss, |examples|));
      return state.network, None;
    }

    /**
     * One epoch: every example in order, stopping at the first exception, with the loss of
     * each example summed.
     */
    method RunEpoch<N(!new)>(ops: NetworkOperations<N>, network: N, examples: seq<TrainingExample>)
      returns (state: EpochState<N>)
      requires Lawful(ops)
      ensures state == Epoch(ops, lossFunction, learningRate, network, examples)
    {
      var trained := network;
      var totalLoss := 0.0;
      for k := 0 to |examples|
        invariant Epoch(ops, lossFunction, learningRate, network, examples[..k]) == EpochState(trained, totalLoss, None)
      {
        var example := examples[k];
        assert examples[..k + 1][..k] == examples[..k];
        var outputs := ops.forward(trained, example.inputs);
        var failure: Option<Error> := None;
        if outputs.Failure? {
          failure := Some(outputs.error);
        } else {
          var exampleLoss := lossFunction.calculate(outputs.value, example.targets);
          if exampleLoss.Failure? {
            failure := Some(exampleLoss.error);
          } else {
            var errorGradients := lossFunction.derivative(outputs.value, example.targets);
            if errorGradients.Failure? {
              failure := Some(errorGradients.error);
            } else {
              var layerGradients := ops.backpropagate(trained, example.inputs, errorGradients.value);
              if layerGradients.Failure? {
                failure := Some(layerGradients.error);
              } else {
                var layerUpdates := ScaleGradients(learningRate, layerGradients.value);
                var updated := ops.updateAllLayers(trained, layerUpdates);
                if updated.Failure? {
                  failure := Some(updated.error);
                } else {
                  trained := updated.value;
                  totalLoss := totalLoss + exampleLoss.value;
                }
              }
            }
          }
        }
        if failure.Some? {
          EpochStops(ops, lossFunction, learningRate, network, examples, k, EpochState(trained, totalLoss, failure));
          return EpochState(trained, totalLoss, failure);
        }
      }
      assert examples[..|examples|] == examples;
      return EpochState(trained, totalLoss, None);
    }
  }

  /** An epoch that stops at an example stays stopped: the later examples are not run. */
  lemma EpochStops<N(!new)>(ops: NetworkOperations<N>, loss: LossFunction, learningRate: real, network: N,
                            examples: seq<TrainingExample>, k: nat, stopped: EpochState<N>)
    requires Lawful(ops)
    requires k < |examples|
    requires Epoch(ops, loss, learningRate, network, examples[..k + 1]) == stopped && stopped.error.Some?
    ensures Epoch(ops, loss, learningRate, network, examples) == stopped
  {
    var s0 := EpochState(network, 0.0, None);
    assert examples == examples[..k + 1] + examples[k + 1..];
    ContinueEpochAppend(ops, loss, learningRate, s0, examples[..k + 1], examples[k + 1..]);
    ContinueEpochAfterError(ops, loss, learningRate, stopped, examples[k + 1..]);
  }

  /** Running more examples after an exception changes nothing. */
  lemma {:induction false} ContinueEpochAfterError<N(!new)>(ops: NetworkOperations<N>, loss: LossFunction, learningRate: real,
                                                            s: EpochState<N>, examples: seq<TrainingExample>)
    requires Lawful(ops)
    requires s.error.Some?
    ensures ContinueEpoch(ops, loss, learningRate, s, examples) == s
    decreases |examples|
  {
    if |examples| > 0 {
      ContinueEpochAfterError(ops, loss, learningRate, s, examples[..|examples| - 1]);
    }
  }

  /** Examples are processed one after another: running `a + b` is running `a`, then `b` from where `a` ended. */
  lemma {:induction false} ContinueEpochAppend<N(!new)>(ops: NetworkOperations<N>, loss: LossFunction, learningRate: real,
                                                        s: EpochState<N>, a: seq<TrainingExample>, b: seq<TrainingExample>)
    requires Lawful(ops)
    ensures ContinueEpoch(ops, loss, learningRate, s, a + b)
         == ContinueEpoch(ops, loss, learningRate, ContinueEpoch(ops, loss, learningRate, s, a), b)
    decreases |b|
  {
    if |b| > 0 {
      var n := |b| - 1;
      assert (a + b)[..|a + b| - 1] == a + b[..n];
      assert (a + b)[|a + b| - 1] == b[n];
      ContinueEpochAppend(ops, loss, learningRate, s, a, b[..n]);
    } else {
      assert a + b == a;
    }
  }

  /** Each epoch of a run advances the run so far by one `AdvanceRun`. */
  lemma RunStep<N(!new)>(ops: NetworkOperations<N>, loss: LossFunction, learningRate: real, network: N,
                         examples: seq<TrainingExample>, epochs: nat)
    requires Lawful(ops)
    ensures Run(ops, loss, learningRate, network, examples, epochs + 1)
         == AdvanceRun(ops, loss, learningRate, Run(ops, loss, learningRate, network, examples, epochs), examples, epochs)
  {
  }

  /** Epochs after an exception change nothing. */
  lemma {:induction false} RunAfterError<N(!new)>(ops: NetworkOperations<N>, loss: LossFunction, learningRate: real, network: N,
                                                  examples: seq<TrainingExample>, failed: nat, epochs: nat)
    requires Lawful(ops)
    requires failed <= epochs
    requires Run(ops, loss, learningRate, network, examples, failed).error.Some?
    ensures Run(ops, loss, learningRate, network, examples, epochs) == Run(ops, loss, learningRate, network, examples, failed)
    decreases epochs
  {
    if epochs > failed {
      RunAfterError(ops, loss, learningRate, network, examples, failed, epochs - 1);
    }
  }

  /** A run never reports more epochs than it ran, and one that raised nothing reported them all. */
  lemma {:induction false} RunReportsCount<N(!new)>(ops: NetworkOperations<N>, loss: LossFunction, learningRate: real, network: N,
                                                    examples: seq<TrainingExample>, epochs: nat)
    requires Lawful(ops)
    ensures var run := Run(ops, loss, learningRate, network, examples, epochs);
            && |run.reports| <= epochs
            && (run.error.None? ==> |run.reports| == epochs)
    decreases epochs
  {
    if epochs > 0 {
      RunReportsCount(ops, loss, learningRate, network, examples, epochs - 1);
    }
  }

  /** The report made at the end of epoch i: its number, and its summed loss over the example count. */
  function EpochReport<N(!new)>(ops: NetworkOperations<N>, loss: LossFunction, learningRate: real, network: N,
                                examples: seq<TrainingExample>, i: nat): TrainingStatistics
    requires Lawful(ops)
  {
    TrainingStatistics(i, DivideByCount(
      Epoch(ops, loss, learningRate, Run(ops, loss, learningRate, network, examples, i).network, examples).totalLoss, |examples|))
  }

  /** The report at index i is the one made at the end of epoch i. */
  lemma {:induction false} RunReportsRecords<N(!new)>(ops: NetworkOperations<N>, loss: LossFunction, learningRate: real, network: N,
                                                      examples: seq<TrainingExample>, epochs: nat)
    requires Lawful(ops)
    ensures var run := Run(ops, loss, learningRate, network, examples, epochs);
            forall i :: 0 <= i < |run.reports| ==> run.reports[i] == EpochReport(ops, loss, learningRate, network, examples, i)
    decreases epochs
  {
    if epochs > 0 {
      var before := Run(ops, loss, learningRate, network, examples, epochs - 1).reports;
      var after := Run(ops, loss, learningRate, network, examples, epochs).reports;
      RunReportsStep(ops, loss, learningRate, network, examples, epochs);
      forall i | 0 <= i < |after|
        ensures after[i] == EpochReport(ops, loss, learningRate, network, examples, i)
      {
        if i < |before| {
          RunReportsRecords(ops, loss, learningRate, network, examples, epochs - 1);
          assert after[i] == before[i];
        }
      }
    }
  }

  /** Each epoch adds its own report to the end of the list, or nothing when it raises. */
  lemma RunReportsStep<N(!new)>(ops: NetworkOperations<N>, loss: LossFunction, learningRate: real, network: N,
                                examples: seq<TrainingExample>, epochs: nat)
    requires Lawful(ops)
    requires epochs > 0
    ensures var before := Run(ops, loss, learningRate, network, examples, epochs - 1).reports;
            var after := Run(ops, loss, learningRate, network, examples, epochs).reports;
            after == before || after == before + [EpochReport(ops, loss, learningRate, network, examples, |before|)]
  {
    RunReportsCount(ops, loss, learningRate, network, examples, epochs - 1);
  }

  /**
   * The reports of a run: one per completed epoch, numbered 0, 1, ... in order; a run that
   * raised no exception completed all its epochs, and each report carries that epoch's
   * summed loss divided by the number of examples.
   */
  lemma RunReports<N(!new)>(ops: NetworkOperations<N>, loss: LossFunction, learningRate: real, network: N,
                            examples: seq<TrainingExample>, epochs: nat)
    requires Lawful(ops)
    ensures var run := Run(ops, loss, learningRate, network, examples, epochs);
            && |run.reports| <= epochs
            && (run.error.None? ==> |run.reports| == epochs)
            && Epochs(run.reports) == EpochRange(|run.reports|)
            && (forall i :: 0 <= i < |run.reports| ==>
                  run.reports[i].averageLoss == DivideByCount(
                    Epoch(ops, loss, learningRate, Run(ops, loss, learningRate, network, examples, i).network, examples).totalLoss,
                    |examples|))
  {
    RunReportsCount(ops, loss, learningRate, network, examples, epochs);
    RunReportsRecords(ops, loss, learningRate, network, examples, epochs);
    var run := Run(ops, loss, learningRate, network, examples, epochs);
    forall i | 0 <= i < |run.reports|
      ensures Epochs(run.reports)[i] == EpochRange(|run.reports|)[i]
      ensures run.reports[i].averageLoss == EpochReport(ops, loss, learningRate, network, examples, i).averageLoss
    {
    }
  }

  /** One example keeps the network's shape. */
  lemma ExampleStepKeepsShape<N(!new)>(ops: NetworkOperations<N>, loss: LossFunction, learningRate: real, network: N, example: TrainingExample)
    requires Lawful(ops)
    requires ExampleStep(ops, loss, learningRate, network, example).Success?
    ensures ops.shape(ExampleStep(ops, loss, learningRate, network, example).value.network) == ops.shape(network)
  {
    var outputs := ops.forward(network, example.inputs).value;
    var errorGradients := loss.derivative(outputs, example.targets).value;
    var gradients := ops.backpropagate(network, example.inputs, errorGradients).value;
    ScaledUpdatesShape(learningRate, gradients);
    assert UpdateShape(ScaledUpdates(learningRate, gradients)) == ops.shape(network);
  }

  /** An epoch keeps the network's shape, whether or not it completes. */
  lemma {:induction false} ContinueEpochKeepsShape<N(!new)>(ops: NetworkOperations<N>, loss: LossFunction, learningRate: real,
                                                            s: EpochState<N>, examples: seq<TrainingExample>)
    requires Lawful(ops)
    ensures ops.shape(ContinueEpoch(ops, loss, learningRate, s, examples).network) == ops.shape(s.network)
    decreases |examples|
  {
    if |examples| > 0 {
      var before := ContinueEpoch(ops, loss, learningRate, s, examples[..|examples| - 1]);
      ContinueEpochKeepsShape(ops, loss, learningRate, s, examples[..|examples| - 1]);
      if before.error.None? && ExampleStep(ops, loss, learningRate, before.network, examples[|examples| - 1]).Success? {
        ExampleStepKeepsShape(ops, loss, learningRate, before.network, examples[|examples| - 1]);
      }
    }
  }

  /** Training never changes the network's shape: the same layers, neurons and weights per neuron. */
  lemma {:induction false} RunKeepsShape<N(!new)>(ops: NetworkOperations<N>, loss: LossFunction, learningRate: real, network: N,
                                                  examples: seq<TrainingExample>, epochs: nat)
    requires Lawful(ops)
    ensures ops.shape(Run(ops, loss, learningRate, network, examples, epochs).network) == ops.shape(network)
    decreases epochs
  {
    if epochs > 0 {
      RunKeepsShape(ops, loss, learningRate, network, examples, epochs - 1);
      var before := Run(ops, loss, learningRate, network, examples, epochs - 1);
      ContinueEpochKeepsShape(ops, loss, learningRate, EpochState(before.network, 0.0, None), examples);
    }
  }
}
