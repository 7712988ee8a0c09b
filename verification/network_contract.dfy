/**
 * The multi-layer network as the gradient-descent trainer sees it. Only its signature is
 * known (forward pass, backpropagation, applying updates to every layer), so the network is
 * an opaque state `N` with its operations given as function values, and the laws below are
 * about shapes alone.
 */
module NetworkContract {
  import opened Wrappers
  import opened Runtime

  /** The gradients of one neuron: one per weight, and one for the bias. */
  datatype NeuronGradient = NeuronGradient(weightGradients: seq<real>, biasGradient: real)

  /** The changes to apply to one neuron: one per weight, and one for the bias. */
  datatype NeuronUpdate = NeuronUpdate(weightDeltas: seq<real>, biasDelta: real)

  /** For each layer, for each neuron, its number of weights. */
  type Shape = seq<seq<nat>>

  function GradientShape(gradients: seq<seq<NeuronGradient>>): (s: Shape)
    ensures |s| == |gradients|
    ensures forall l :: 0 <= l < |s| ==> |s[l]| == |gradients[l]|
    ensures forall l, k :: 0 <= l < |s| && 0 <= k < |s[l]| ==> s[l][k] == |gradients[l][k].weightGradients|
  {
    seq(|gradients|, l requires 0 <= l < |gradients| =>
      seq(|gradients[l]|, k requires 0 <= k < |gradients[l]| => |gradients[l][k].weightGradients|))
  }

  function UpdateShape(updates: seq<seq<NeuronUpdate>>): (s: Shape)
    ensures |s| == |updates|
    ensures forall l :: 0 <= l < |s| ==> |s[l]| == |updates[l]|
    ensures forall l, k :: 0 <= l < |s| && 0 <= k < |s[l]| ==> s[l][k] == |updates[l][k].weightDeltas|
  {
    seq(|updates|, l requires 0 <= l < |updates| =>
      seq(|updates[l]|, k requires 0 <= k < |updates[l]| => |updates[l][k].weightDeltas|))
  }

  /**
   * A network's operations over its state `N`: its shape, the forward pass, backpropagation
   * of the output error gradients to per-layer gradients, and applying per-layer updates.
   * Each of the last three may raise an exception, modelled as a `Failure`.
   */
  datatype NetworkOperations<!N> = NetworkOperations(
    shape: N -> Shape,
    forward: (N, seq<real>) -> Result<seq<real>, Error>,
    backpropagate: (N, seq<real>, seq<real>) -> Result<seq<seq<NeuronGradient>>, Error>,
    updateAllLayers: (N, seq<seq<NeuronUpdate>>) -> Result<N, Error>)

  /**
   * The shape laws a network obeys: a forward pass yields at least one output (assumed, as
   * any network with a layer has one; the interface itself does not promise it),
   * backpropagation yields one gradient per weight of the network, and applying updates
   * of the network's own shape keeps that shape.
   */
  ghost predicate Lawful<N(!new)>(ops: NetworkOperations<N>) {
    && (forall n, inputs :: ops.forward(n, inputs).Success? ==> |ops.forward(n, inputs).value| > 0)
    && (forall n, inputs, errors :: ops.backpropagate(n, inputs, errors).Success? ==>
          GradientShape(ops.backpropagate(n, inputs, errors).value) == ops.shape(n))
    && (forall n, updates :: ops.updateAllLayers(n, updates).Success? && UpdateShape(updates) == ops.shape(n) ==>
          ops.shape(ops.updateAllLayers(n, updates).value) == ops.shape(n))
  }
}
