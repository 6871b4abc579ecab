/**
 A model of the feedforward network of libs/neural-network/src/lib.rs:
 `Neuron`, `Layer`, `Network` and `LayerTopology`, their randomized
 construction and their forward propagation.

 Weights, biases and activations are `real`. The random number generator is
 modelled as the sequence of draws it still has to give: every constructor
 takes the remaining draws and returns the value it built together with the
 draws it left over, so construction is a total function of the topology and
 the draw stream.
 */
module NeuralNetwork {

  datatype Option<T> = None | Some(value: T)

  /** The width of one layer of a topology. */
  datatype LayerTopology = LayerTopology(neurons: nat)

  datatype Neuron = Neuron(bias: real, weights: seq<real>)

  datatype Layer = Layer(neurons: seq<Neuron>)

  datatype Network = Network(layers: seq<Layer>)

  // ---------------------------------------------------------------------
  // Shapes
  // ---------------------------------------------------------------------

  /** A layer of `outputNeurons` neurons, each reading `inputNeurons` inputs. */
  predicate LayerShaped(layer: Layer, inputNeurons: nat, outputNeurons: nat)
  {
    && |layer.neurons| == outputNeurons
    && forall j :: 0 <= j < |layer.neurons| ==> |layer.neurons[j].weights| == inputNeurons
  }

  /** The number of adjacent pairs `windows(2)` yields for a topology. */
  function LayerCount(topology: seq<LayerTopology>): nat
  {
    if |topology| < 2 then 0 else |topology| - 1
  }

  /** One layer per adjacent pair of the topology, each shaped by its pair. */
  predicate Shaped(network: Network, topology: seq<LayerTopology>)
  {
    && |network.layers| == LayerCount(topology)
    && forall i :: 0 <= i < |network.layers| ==>
         LayerShaped(network.layers[i], topology[i].neurons, topology[i + 1].neurons)
  }

  /** Every neuron of a layer reads as many inputs as the layer before it has neurons. */
  predicate WidthCompatible(network: Network)
  {
    forall i :: 0 < i < |network.layers| ==>
      forall j :: 0 <= j < |network.layers[i].neurons| ==>
        |network.layers[i].neurons[j].weights| == |network.layers[i - 1].neurons|
  }

  // ---------------------------------------------------------------------
  // The draw stream
  // ---------------------------------------------------------------------

  /** Every value lies in the closed range [-1, 1] that the generator samples from. */
  predicate InUnitRange(s: seq<real>)
  {
    forall i :: 0 <= i < |s| ==> -1.0 <= s[i] <= 1.0
  }

  /** The draws one neuron consumes: its bias and its weights. */
  function NeuronDraws(weightsSize: nat): nat
  {
    1 + weightsSize
  }

  /** The draws `outputNeurons` neurons of `inputNeurons` weights each consume. */
  function LayerDraws(inputNeurons: nat, outputNeurons: nat): nat
  {
    if outputNeurons == 0 then 0 else NeuronDraws(inputNeurons) + LayerDraws(inputNeurons, outputNeurons - 1)
  }

  /** The draws a whole network consumes, summed over the adjacent pairs of the topology. */
  function NetworkDraws(topology: seq<LayerTopology>): nat
    decreases |topology|
  {
    if |topology| < 2 then 0
    else LayerDraws(topology[0].neurons, topology[1].neurons) + NetworkDraws(topology[1..])
  }

  /** The parameters of a neuron in the order they are drawn: the bias, then the weights. */
  function NeuronParams(neuron: Neuron): seq<real>
  {
    [neuron.bias] + neuron.weights
  }

  /** The parameters of neurons, neuron after neuron. */
  function NeuronsParams(neurons: seq<Neuron>): seq<real>
  {
    if neurons == [] then [] else NeuronParams(neurons[0]) + NeuronsParams(neurons[1..])
  }

  /** The parameters of layers, layer after layer. */
  function LayersParams(layers: seq<Layer>): seq<real>
  {
    if layers == [] then [] else NeuronsParams(layers[0].neurons) + LayersParams(layers[1..])
  }

  lemma NeuronsParamsCons(neuron: Neuron, neurons: seq<Neuron>)
    ensures NeuronsParams([neuron] + neurons) == NeuronParams(neuron) + NeuronsParams(neurons)
  {
    assert ([neuron] + neurons)[1..] == neurons;
  }

  lemma LayersParamsCons(layer: Layer, layers: seq<Layer>)
    ensures LayersParams([layer] + layers) == NeuronsParams(layer.neurons) + LayersParams(layers)
  {
    assert ([layer] + layers)[1..] == layers;
  }

  lemma Regroup(a: seq<real>, b: seq<real>, c: seq<real>)
    ensures a + (b + c) == (a + b) + c
  {
  }

  // ---------------------------------------------------------------------
  // Randomized construction
  // ---------------------------------------------------------------------

  /** `(0..n).map(|_| rng.gen_range(-1.0..=1.0)).collect()`: the next `n` draws, in order. */
  function DrawMany(draws: seq<real>, n: nat): (r: (seq<real>, seq<real>))
    requires n <= |draws|
    ensures |r.0| == n
    ensures r.0 + r.1 == draws
  {
    if n == 0 then ([], draws)
    else
      var (tail, rest) := DrawMany(draws[1..], n - 1);
      assert [draws[0]] + (tail + rest) == draws;
      ([draws[0]] + tail, rest)
  }

  /** `Neuron::random`: the bias is the first draw, the weights are the next `weightsSize`. */
  function RandomNeuron(draws: seq<real>, weightsSize: nat): (r: (Neuron, seq<real>))
    requires NeuronDraws(weightsSize) <= |draws|
    ensures r.0.bias == draws[0]
    ensures r.0.weights == draws[1..NeuronDraws(weightsSize)]
    ensures |NeuronParams(r.0)| == NeuronDraws(weightsSize)
    ensures NeuronParams(r.0) + r.1 == draws
  {
    var bias := draws[0];
    var (weights, rest) := DrawMany(draws[1..], weightsSize);
    assert [bias] + (weights + rest) == draws;
    (Neuron(bias, weights), rest)
  }

  /** The neurons of `Layer::random`: `outputNeurons` calls of `Neuron::random`, in order. */
  function RandomNeurons(draws: seq<real>, inputNeurons: nat, outputNeurons: nat): (r: (seq<Neuron>, seq<real>))
    requires LayerDraws(inputNeurons, outputNeurons) <= |draws|
    ensures LayerShaped(Layer(r.0), inputNeurons, outputNeurons)
    ensures |NeuronsParams(r.0)| == LayerDraws(inputNeurons, outputNeurons)
    ensures NeuronsParams(r.0) + r.1 == draws
    decreases outputNeurons
  {
    if outputNeurons == 0 then ([], draws)
    else
      var (neuron, rest) := RandomNeuron(draws, inputNeurons);
      var (tail, rest') := RandomNeurons(rest, inputNeurons, outputNeurons - 1);
      NeuronsParamsCons(neuron, tail);
      Regroup(NeuronParams(neuron), NeuronsParams(tail), rest');
      ([neuron] + tail, rest')
  }

  /** `Layer::random`. */
  function RandomLayer(draws: seq<real>, inputNeurons: nat, outputNeurons: nat): (r: (Layer, seq<real>))
    requires LayerDraws(inputNeurons, outputNeurons) <= |draws|
    ensures LayerShaped(r.0, inputNeurons, outputNeurons)
    ensures |NeuronsParams(r.0.neurons)| == LayerDraws(inputNeurons, outputNeurons)
    ensures NeuronsParams(r.0.neurons) + r.1 == draws
  {
    var (neurons, rest) := RandomNeurons(draws, inputNeurons, outputNeurons);
    (Layer(neurons), rest)
  }

  /**
   `Network::random`: one `Layer::random` per adjacent pair of the topology
   (`windows(2)`), in order; a topology of fewer than two entries gives no layers.
   */
  function RandomNetwork(draws: seq<real>, topology: seq<LayerTopology>): (r: (Network, seq<real>))
    requires NetworkDraws(topology) <= |draws|
    ensures |LayersParams(r.0.layers)| == NetworkDraws(topology)
    ensures LayersParams(r.0.layers) + r.1 == draws
    decreases |topology|
  {
    if |topology| < 2 then (Network([]), draws)
    else
      var (layer, rest) := RandomLayer(draws, topology[0].neurons, topology[1].neurons);
      var (tail, rest') := RandomNetwork(rest, topology[1..]);
      LayersParamsCons(layer, tail.layers);
      Regroup(NeuronsParams(layer.neurons), LayersParams(tail.layers), rest');
      (Network([layer] + tail.layers), rest')
  }

  // ---------------------------------------------------------------------
  // Forward propagation
  // ---------------------------------------------------------------------

  /** ReLU, `x.max(0.0)`. */
  function Relu(x: real): (r: real)
    ensures r >= 0.0 && r >= x
    ensures r == x || r == 0.0
  {
    if x >= 0.0 then x else 0.0
  }

  /** The dot product: the sum of `inputs[i] * weights[i]`. */
  function Dot(inputs: seq<real>, weights: seq<real>): real
    requires |inputs| == |weights|
  {
    if inputs == [] then 0.0 else inputs[0] * weights[0] + Dot(inputs[1..], weights[1..])
  }

  /** `inputs.iter().zip(weights).map(|(i, w)| i * w).sum()`, accumulated left to right from `acc`. */
  function SumProducts(inputs: seq<real>, weights: seq<real>, acc: real): (r: real)
    requires |inputs| == |weights|
    ensures r == acc + Dot(inputs, weights)
  {
    if inputs == [] then acc else SumProducts(inputs[1..], weights[1..], acc + inputs[0] * weights[0])
  }

  /** `Neuron::propagate`; `None` stands for the panic of its `assert_eq!` on the input width. */
  function NeuronPropagate(neuron: Neuron, inputs: seq<real>): (r: Option<real>)
    ensures r.Some? <==> |inputs| == |neuron.weights|
    ensures r.Some? ==> r.value >= 0.0
    ensures r.Some? ==> r.value == Relu(neuron.bias + Dot(inputs, neuron.weights))
  {
    if |inputs| != |neuron.weights| then None
    else Some(Relu(neuron.bias + SumProducts(inputs, neuron.weights, 0.0)))
  }

  /** `Layer::propagate`: every neuron on the same inputs; a panicking neuron makes the layer panic. */
  function LayerPropagate(layer: Layer, inputs: seq<real>): (r: Option<seq<real>>)
    ensures r.Some? <==> forall j :: 0 <= j < |layer.neurons| ==> |layer.neurons[j].weights| == |inputs|
    ensures r.Some? ==> |r.value| == |layer.neurons|
    ensures r.Some? ==> forall j :: 0 <= j < |layer.neurons| ==>
              NeuronPropagate(layer.neurons[j], inputs) == Some(r.value[j])
    decreases |layer.neurons|
  {
    if layer.neurons == [] then Some([])
    else
      var tail := Layer(layer.neurons[1..]);
      match NeuronPropagate(layer.neurons[0], inputs)
      case None => None
      case Some(out) =>
        match LayerPropagate(tail, inputs)
        case None =>
          assert !(forall j :: 0 <= j < |tail.neurons| ==> |tail.neurons[j].weights| == |inputs|);
          None
        case Some(outs) => Some([out] + outs)
  }

  /** `Network::propagate`: a left fold of `Layer::propagate` over the layers. */
  function NetworkPropagate(network: Network, inputs: seq<real>): (r: Option<seq<real>>)
    ensures network.layers == [] ==> r == Some(inputs)
    ensures network.layers != [] && r.Some? ==>
              |r.value| == |network.layers[|network.layers| - 1].neurons|
              && forall k :: 0 <= k < |r.value| ==> r.value[k] >= 0.0
    decreases |network.layers|
  {
    if network.layers == [] then Some(inputs)
    else
      match LayerPropagate(network.layers[0], inputs)
      case None => None
      case Some(outputs) => NetworkPropagate(Network(network.layers[1..]), outputs)
  }
}
