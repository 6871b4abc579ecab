/**
 Properties of the network model: the shapes `Network::random` builds, the
 order and number of the draws it consumes, the range of the parameters it
 draws, and the widths `Network::propagate` accepts and returns.
 */
module NeuralNetworkProperties {
  import opened NeuralNetwork

  // ---------------------------------------------------------------------
  // Sequence facts used below
  // ---------------------------------------------------------------------

  lemma ConcatPrefix(a: seq<real>, b: seq<real>, lo: nat, hi: nat)
    requires lo <= hi <= |a|
    ensures (a + b)[lo..hi] == a[lo..hi]
  {
  }

  lemma ConcatSuffix(a: seq<real>, b: seq<real>, lo: nat, hi: nat)
    requires lo <= hi <= |b|
    ensures (a + b)[|a| + lo..|a| + hi] == b[lo..hi]
  {
  }

  /** A position and a slice of `a`, read in a stream that starts with `a`. */
  lemma PrefixAt(a: seq<real>, b: seq<real>, s: seq<real>, lo: nat, hi: nat)
    requires a + b == s
    requires lo < hi <= |a|
    ensures s[lo] == a[lo]
    ensures s[lo + 1..hi] == a[lo + 1..hi]
  {
    ConcatPrefix(a, b, lo + 1, hi);
  }

  /** Position `a` and the positions after it up to `b` of a slice, read in the whole sequence. */
  lemma SubSlice(s: seq<real>, lo: nat, hi: nat, a: nat, b: nat)
    requires lo <= hi <= |s| && a < b <= hi - lo
    ensures s[lo..hi][a] == s[lo + a]
    ensures s[lo..hi][a + 1..b] == s[lo + a + 1..lo + b]
  {
    assert forall k :: a + 1 <= k < b ==> s[lo..hi][k] == s[lo + k];
  }

  // ---------------------------------------------------------------------
  // Draw counts
  // ---------------------------------------------------------------------

  /** A layer consumes `(1 + input) * output` draws. */
  lemma {:induction false} LayerDrawsProduct(inputNeurons: nat, outputNeurons: nat)
    ensures LayerDraws(inputNeurons, outputNeurons) == (1 + inputNeurons) * outputNeurons
    decreases outputNeurons
  {
    if outputNeurons > 0 {
      LayerDrawsProduct(inputNeurons, outputNeurons - 1);
    }
  }

  lemma {:induction false} LayerDrawsMonotone(inputNeurons: nat, a: nat, b: nat)
    requires a <= b
    ensures LayerDraws(inputNeurons, a) <= LayerDraws(inputNeurons, b)
    decreases b
  {
    if a < b {
      LayerDrawsMonotone(inputNeurons, a, b - 1);
    }
  }

  /** The draws the first `i` layers of a network of this topology consume. */
  function LayerOffset(topology: seq<LayerTopology>, i: nat): nat
    requires i < |topology|
  {
    NetworkDraws(topology[..i + 1])
  }

  lemma LayerOffsetStep(topology: seq<LayerTopology>, i: nat)
    requires 0 < i < |topology|
    ensures LayerOffset(topology, i)
         == LayerDraws(topology[0].neurons, topology[1].neurons) + LayerOffset(topology[1..], i - 1)
  {
    assert topology[..i + 1][1..] == topology[1..][..i];
  }

  // ---------------------------------------------------------------------
  // Shapes
  // ---------------------------------------------------------------------

  lemma NeuronsShapedTail(neurons: seq<Neuron>, inputNeurons: nat)
    requires neurons != []
    requires LayerShaped(Layer(neurons), inputNeurons, |neurons|)
    ensures LayerShaped(Layer(neurons[1..]), inputNeurons, |neurons| - 1)
  {
    forall i | 0 <= i < |neurons| - 1 ensures |neurons[1..][i].weights| == inputNeurons {
      assert neurons[1..][i] == neurons[i + 1];
    }
  }

  /** The tail of a shaped network is shaped by the tail of its topology. */
  lemma ShapedTail(network: Network, topology: seq<LayerTopology>)
    requires Shaped(network, topology)
    requires |topology| >= 2
    ensures Shaped(Network(network.layers[1..]), topology[1..])
  {
    var tail := Network(network.layers[1..]);
    forall i | 0 <= i < |tail.layers|
      ensures LayerShaped(tail.layers[i], topology[1..][i].neurons, topology[1..][i + 1].neurons)
    {
      assert tail.layers[i] == network.layers[i + 1];
    }
  }

  /** The width invariant of a network follows from its topology. */
  lemma ShapedWidthCompatible(network: Network, topology: seq<LayerTopology>)
    requires Shaped(network, topology)
    ensures WidthCompatible(network)
  {
    forall i | 0 < i < |network.layers|
      ensures forall j :: 0 <= j < |network.layers[i].neurons| ==>
                |network.layers[i].neurons[j].weights| == |network.layers[i - 1].neurons|
    {
      assert LayerShaped(network.layers[i - 1], topology[i - 1].neurons, topology[i].neurons);
      assert LayerShaped(network.layers[i], topology[i].neurons, topology[i + 1].neurons);
    }
  }

  /**
   `Network::random` builds `|topology| - 1` layers (none for a topology of fewer than
   two entries); layer `i` has `topology[i + 1]` neurons of `topology[i]` weights each,
   so adjacent layers fit.
   */
  lemma {:induction false} RandomNetworkShaped(draws: seq<real>, topology: seq<LayerTopology>)
    requires NetworkDraws(topology) <= |draws|
    ensures Shaped(RandomNetwork(draws, topology).0, topology)
    ensures WidthCompatible(RandomNetwork(draws, topology).0)
    decreases |topology|
  {
    var network := RandomNetwork(draws, topology).0;
    if |topology| >= 2 {
      var (layer, rest) := RandomLayer(draws, topology[0].neurons, topology[1].neurons);
      RandomNetworkShaped(rest, topology[1..]);
      var tail := RandomNetwork(rest, topology[1..]).0;
      assert network.layers == [layer] + tail.layers;
      forall i | 0 < i < |network.layers|
        ensures LayerShaped(network.layers[i], topology[i].neurons, topology[i + 1].neurons)
      {
        assert network.layers[i] == tail.layers[i - 1];
      }
    }
    ShapedWidthCompatible(network, topology);
  }

  // ---------------------------------------------------------------------
  // Draw order
  // ---------------------------------------------------------------------

  lemma {:induction false} NeuronsParamsLength(neurons: seq<Neuron>, inputNeurons: nat)
    requires LayerShaped(Layer(neurons), inputNeurons, |neurons|)
    ensures |NeuronsParams(neurons)| == LayerDraws(inputNeurons, |neurons|)
    decreases |neurons|
  {
    if neurons != [] {
      NeuronsShapedTail(neurons, inputNeurons);
      NeuronsParamsLength(neurons[1..], inputNeurons);
    }
  }

  /** In the parameters of equally wide neurons, neuron `j` starts after the first `j` neurons'. */
  lemma {:induction false} NeuronsParamsAt(neurons: seq<Neuron>, inputNeurons: nat, j: nat)
    requires LayerShaped(Layer(neurons), inputNeurons, |neurons|)
    requires j < |neurons|
    ensures LayerDraws(inputNeurons, j + 1) <= |NeuronsParams(neurons)|
    ensures NeuronsParams(neurons)[LayerDraws(inputNeurons, j)] == neurons[j].bias
    ensures NeuronsParams(neurons)[LayerDraws(inputNeurons, j) + 1..LayerDraws(inputNeurons, j + 1)]
         == neurons[j].weights
    decreases j
  {
    var head := NeuronParams(neurons[0]);
    var tail := NeuronsParams(neurons[1..]);
    assert NeuronsParams(neurons) == head + tail;
    assert |head| == NeuronDraws(inputNeurons);
    if j == 0 {
      ConcatPrefix(head, tail, 1, |head|);
    } else {
      NeuronsShapedTail(neurons, inputNeurons);
      NeuronsParamsAt(neurons[1..], inputNeurons, j - 1);
      assert neurons[1..][j - 1] == neurons[j];
      var o := LayerDraws(inputNeurons, j - 1);
      var o' := LayerDraws(inputNeurons, j);
      assert o' == |head| + o;
      assert LayerDraws(inputNeurons, j + 1) == |head| + o';
      assert (head + tail)[o'] == tail[o];
      ConcatSuffix(head, tail, o + 1, o');
    }
  }

  /** In the parameters of a shaped network, layer `i` starts after the first `i` layers'. */
  lemma {:induction false} LayersParamsAt(layers: seq<Layer>, topology: seq<LayerTopology>, i: nat)
    requires Shaped(Network(layers), topology)
    requires i < |layers|
    ensures LayerOffset(topology, i) + LayerDraws(topology[i].neurons, topology[i + 1].neurons)
         <= |LayersParams(layers)|
    ensures LayersParams(layers)[LayerOffset(topology, i)..LayerOffset(topology, i)
              + LayerDraws(topology[i].neurons, topology[i + 1].neurons)]
         == NeuronsParams(layers[i].neurons)
    decreases i
  {
    var head := NeuronsParams(layers[0].neurons);
    var tail := LayersParams(layers[1..]);
    assert LayersParams(layers) == head + tail;
    assert LayerShaped(layers[0], topology[0].neurons, topology[1].neurons);
    NeuronsParamsLength(layers[0].neurons, topology[0].neurons);
    assert topology[..1] == [topology[0]];
    if i == 0 {
      ConcatPrefix(head, tail, 0, |head|);
    } else {
      ShapedTail(Network(layers), topology);
      LayersParamsAt(layers[1..], topology[1..], i - 1);
      LayerOffsetStep(topology, i);
      assert layers[1..][i - 1] == layers[i];
      var o := LayerOffset(topology[1..], i - 1);
      var l := LayerDraws(topology[i].neurons, topology[i + 1].neurons);
      ConcatSuffix(head, tail, o, o + l);
    }
  }

  /**
   Neuron `j` of `Layer::random` takes its bias from the draw after the first `j`
   neurons' draws, and its weights from the `inputNeurons` draws after that.
   */
  lemma RandomLayerNeuronAt(draws: seq<real>, inputNeurons: nat, outputNeurons: nat, j: nat)
    requires LayerDraws(inputNeurons, outputNeurons) <= |draws|
    requires j < outputNeurons
    ensures LayerDraws(inputNeurons, j + 1) <= LayerDraws(inputNeurons, outputNeurons)
    ensures RandomLayer(draws, inputNeurons, outputNeurons).0.neurons[j].bias
         == draws[LayerDraws(inputNeurons, j)]
    ensures RandomLayer(draws, inputNeurons, outputNeurons).0.neurons[j].weights
         == draws[LayerDraws(inputNeurons, j) + 1..LayerDraws(inputNeurons, j + 1)]
  {
    var (layer, rest) := RandomLayer(draws, inputNeurons, outputNeurons);
    NeuronsParamsAt(layer.neurons, inputNeurons, j);
    ConcatPrefix(NeuronsParams(layer.neurons), rest, LayerDraws(inputNeurons, j) + 1, LayerDraws(inputNeurons, j + 1));
  }

  /**
   In the parameters of a shaped network, neuron `j` of layer `i` starts after the
   parameters of the first `i` layers and of the first `j` neurons of layer `i`.
   */
  lemma NetworkParamsAt(network: Network, topology: seq<LayerTopology>, i: nat, j: nat)
    requires Shaped(network, topology)
    requires i < |network.layers|
    requires j < |network.layers[i].neurons|
    ensures LayerOffset(topology, i) + LayerDraws(topology[i].neurons, j + 1) <= |LayersParams(network.layers)|
    ensures LayersParams(network.layers)[LayerOffset(topology, i) + LayerDraws(topology[i].neurons, j)]
         == network.layers[i].neurons[j].bias
    ensures LayersParams(network.layers)[LayerOffset(topology, i) + LayerDraws(topology[i].neurons, j) + 1
              ..LayerOffset(topology, i) + LayerDraws(topology[i].neurons, j + 1)]
         == network.layers[i].neurons[j].weights
  {
    var layer := network.layers[i];
    var inputs := topology[i].neurons;
    var off := LayerOffset(topology, i);
    var l := LayerDraws(inputs, topology[i + 1].neurons);
    var all := LayersParams(network.layers);
    LayersParamsAt(network.layers, topology, i);
    assert LayerShaped(layer, inputs, topology[i + 1].neurons);
    NeuronsParamsAt(layer.neurons, inputs, j);
    LayerDrawsMonotone(inputs, j + 1, topology[i + 1].neurons);
    SubSlice(all, off, off + l, LayerDraws(inputs, j), LayerDraws(inputs, j + 1));
  }

  /** `NetworkParamsAt`, read in a stream that starts with the network's parameters. */
  lemma StreamParamsAt(network: Network, rest: seq<real>, draws: seq<real>, topology: seq<LayerTopology>, i: nat, j: nat)
    requires Shaped(network, topology)
    requires LayersParams(network.layers) + rest == draws
    requires i < |network.layers|
    requires j < |network.layers[i].neurons|
    ensures LayerOffset(topology, i) + LayerDraws(topology[i].neurons, j + 1) <= |draws|
    ensures draws[LayerOffset(topology, i) + LayerDraws(topology[i].neurons, j)]
         == network.layers[i].neurons[j].bias
    ensures draws[LayerOffset(topology, i) + LayerDraws(topology[i].neurons, j) + 1
              ..LayerOffset(topology, i) + LayerDraws(topology[i].neurons, j + 1)]
         == network.layers[i].neurons[j].weights
  {
    NetworkParamsAt(network, topology, i, j);
    var o := LayerOffset(topology, i) + LayerDraws(topology[i].neurons, j);
    var o' := LayerOffset(topology, i) + LayerDraws(topology[i].neurons, j + 1);
    PrefixAt(LayersParams(network.layers), rest, draws, o, o');
  }

  /**
   The draw order of `Network::random`: layer by layer, neuron by neuron, bias then
   weights. Neuron `j` of layer `i` takes its bias from the draw after those of the
   first `i` layers and of the first `j` neurons of layer `i`, and its weights from the
   `topology[i]` draws after that.
   */
  lemma RandomNetworkNeuronAt(draws: seq<real>, topology: seq<LayerTopology>, i: nat, j: nat)
    requires NetworkDraws(topology) <= |draws|
    requires i < LayerCount(topology)
    requires j < topology[i + 1].neurons
    ensures LayerOffset(topology, i) + LayerDraws(topology[i].neurons, j + 1) <= |draws|
    ensures i < |RandomNetwork(draws, topology).0.layers|
    ensures j < |RandomNetwork(draws, topology).0.layers[i].neurons|
    ensures RandomNetwork(draws, topology).0.layers[i].neurons[j].bias
         == draws[LayerOffset(topology, i) + LayerDraws(topology[i].neurons, j)]
    ensures RandomNetwork(draws, topology).0.layers[i].neurons[j].weights
         == draws[LayerOffset(topology, i) + LayerDraws(topology[i].neurons, j) + 1
                  ..LayerOffset(topology, i) + LayerDraws(topology[i].neurons, j + 1)]
  {
    var r := RandomNetwork(draws, topology);
    RandomNetworkShaped(draws, topology);
    StreamParamsAt(r.0, r.1, draws, topology, i, j);
  }

  // ---------------------------------------------------------------------
  // Reproducibility
  // ---------------------------------------------------------------------

  /** Neurons of one shape are determined by their parameters. */
  lemma NeuronsParamsInjective(a: seq<Neuron>, b: seq<Neuron>, inputNeurons: nat)
    requires LayerShaped(Layer(a), inputNeurons, |a|)
    requires LayerShaped(Layer(b), inputNeurons, |a|)
    requires NeuronsParams(a) == NeuronsParams(b)
    ensures a == b
  {
    forall j | 0 <= j < |a| ensures a[j] == b[j] {
      NeuronsParamsAt(a, inputNeurons, j);
      NeuronsParamsAt(b, inputNeurons, j);
      assert a[j].bias == b[j].bias;
      assert a[j].weights == b[j].weights;
    }
  }

  /** Networks of one topology are determined by their parameters. */
  lemma LayersParamsInjective(a: Network, b: Network, topology: seq<LayerTopology>)
    requires Shaped(a, topology) && Shaped(b, topology)
    requires LayersParams(a.layers) == LayersParams(b.layers)
    ensures a == b
  {
    forall i | 0 <= i < |a.layers| ensures a.layers[i] == b.layers[i] {
      LayersParamsAt(a.layers, topology, i);
      LayersParamsAt(b.layers, topology, i);
      assert LayerShaped(a.layers[i], topology[i].neurons, topology[i + 1].neurons);
      assert LayerShaped(b.layers[i], topology[i].neurons, topology[i + 1].neurons);
      NeuronsParamsInjective(a.layers[i].neurons, b.layers[i].neurons, topology[i].neurons);
    }
  }

  /**
   The network `Network::random` builds is determined by the topology and the first
   `NetworkDraws(topology)` draws, and it determines those draws: two draw streams
   give the same network exactly when they agree on that prefix.
   */
  lemma RandomNetworkDeterminedByDraws(d1: seq<real>, d2: seq<real>, topology: seq<LayerTopology>)
    requires NetworkDraws(topology) <= |d1| && NetworkDraws(topology) <= |d2|
    ensures RandomNetwork(d1, topology).0 == RandomNetwork(d2, topology).0
        <==> d1[..NetworkDraws(topology)] == d2[..NetworkDraws(topology)]
  {
    var (n1, rest1) := RandomNetwork(d1, topology);
    var (n2, rest2) := RandomNetwork(d2, topology);
    var n := NetworkDraws(topology);
    ConcatPrefix(LayersParams(n1.layers), rest1, 0, n);
    ConcatPrefix(LayersParams(n2.layers), rest2, 0, n);
    assert LayersParams(n1.layers) == d1[..n];
    assert LayersParams(n2.layers) == d2[..n];
    if d1[..n] == d2[..n] {
      RandomNetworkShaped(d1, topology);
      RandomNetworkShaped(d2, topology);
      LayersParamsInjective(n1, n2, topology);
    }
  }

  // ---------------------------------------------------------------------
  // Parameter range
  // ---------------------------------------------------------------------

  predicate NeuronInUnitRange(neuron: Neuron)
  {
    -1.0 <= neuron.bias <= 1.0 && InUnitRange(neuron.weights)
  }

  predicate NetworkInUnitRange(network: Network)
  {
    forall i, j :: 0 <= i < |network.layers| && 0 <= j < |network.layers[i].neurons| ==>
      NeuronInUnitRange(network.layers[i].neurons[j])
  }

  lemma InUnitRangeConcat(a: seq<real>, b: seq<real>)
    ensures InUnitRange(a + b) <==> InUnitRange(a) && InUnitRange(b)
  {
    if InUnitRange(a) && InUnitRange(b) {
      forall i | 0 <= i < |a + b| ensures -1.0 <= (a + b)[i] <= 1.0 {
        if i >= |a| { assert (a + b)[i] == b[i - |a|]; }
      }
    }
    if InUnitRange(a + b) {
      forall i | 0 <= i < |a| ensures -1.0 <= a[i] <= 1.0 {
        assert (a + b)[i] == a[i];
      }
      forall i | 0 <= i < |b| ensures -1.0 <= b[i] <= 1.0 {
        assert (a + b)[|a| + i] == b[i];
      }
    }
  }

  lemma {:induction false} NeuronsParamsInUnitRange(neurons: seq<Neuron>)
    requires InUnitRange(NeuronsParams(neurons))
    ensures forall j :: 0 <= j < |neurons| ==> NeuronInUnitRange(neurons[j])
  {
    if neurons != [] {
      InUnitRangeConcat(NeuronParams(neurons[0]), NeuronsParams(neurons[1..]));
      InUnitRangeConcat([neurons[0].bias], neurons[0].weights);
      assert [neurons[0].bias][0] == neurons[0].bias;
      NeuronsParamsInUnitRange(neurons[1..]);
      forall j | 0 < j < |neurons| ensures NeuronInUnitRange(neurons[j]) {
        assert neurons[j] == neurons[1..][j - 1];
      }
    }
  }

  lemma {:induction false} LayersParamsInUnitRange(layers: seq<Layer>)
    requires InUnitRange(LayersParams(layers))
    ensures NetworkInUnitRange(Network(layers))
  {
    if layers != [] {
      InUnitRangeConcat(NeuronsParams(layers[0].neurons), LayersParams(layers[1..]));
      NeuronsParamsInUnitRange(layers[0].neurons);
      LayersParamsInUnitRange(layers[1..]);
      forall i, j | 0 < i < |layers| && 0 <= j < |layers[i].neurons|
        ensures NeuronInUnitRange(layers[i].neurons[j])
      {
        assert layers[i] == layers[1..][i - 1];
      }
    }
  }

  /** With draws from [-1, 1], every bias and weight `Network::random` draws lies in [-1, 1]. */
  lemma RandomNetworkInUnitRange(draws: seq<real>, topology: seq<LayerTopology>)
    requires NetworkDraws(topology) <= |draws|
    requires InUnitRange(draws)
    ensures NetworkInUnitRange(RandomNetwork(draws, topology).0)
  {
    var (network, rest) := RandomNetwork(draws, topology);
    InUnitRangeConcat(LayersParams(network.layers), rest);
    LayersParamsInUnitRange(network.layers);
  }

  // ---------------------------------------------------------------------
  // Propagation
  // ---------------------------------------------------------------------

  /** A shaped layer succeeds exactly on inputs of its input width, unless it has no neurons. */
  lemma LayerPropagateShaped(layer: Layer, inputNeurons: nat, outputNeurons: nat, inputs: seq<real>)
    requires LayerShaped(layer, inputNeurons, outputNeurons)
    ensures LayerPropagate(layer, inputs).Some? <==> outputNeurons == 0 || |inputs| == inputNeurons
    ensures LayerPropagate(layer, inputs).Some? ==> |LayerPropagate(layer, inputs).value| == outputNeurons
  {
    if outputNeurons > 0 && |inputs| != inputNeurons {
      assert |layer.neurons[0].weights| != |inputs|;
    }
  }

  /** `Network::propagate` is a left fold: propagating through `a + b` is `b` after `a`. */
  lemma {:induction false} NetworkPropagateAppend(a: seq<Layer>, b: seq<Layer>, inputs: seq<real>)
    ensures NetworkPropagate(Network(a + b), inputs)
         == match NetworkPropagate(Network(a), inputs)
            case None => None
            case Some(outputs) => NetworkPropagate(Network(b), outputs)
    decreases |a|
  {
    if a == [] {
      assert a + b == b;
    } else {
      assert (a + b)[0] == a[0];
      assert (a + b)[1..] == a[1..] + b;
      match LayerPropagate(a[0], inputs)
      case None =>
      case Some(outputs) => NetworkPropagateAppend(a[1..], b, outputs);
    }
  }

  /** A network of topology T maps an input of width T[0] to an output of width T[|T| - 1]. */
  lemma {:induction false} NetworkPropagateShaped(network: Network, topology: seq<LayerTopology>, inputs: seq<real>)
    requires Shaped(network, topology)
    requires |topology| >= 2
    requires |inputs| == topology[0].neurons
    ensures NetworkPropagate(network, inputs).Some?
    ensures |NetworkPropagate(network, inputs).value| == topology[|topology| - 1].neurons
    decreases |topology|
  {
    LayerPropagateShaped(network.layers[0], topology[0].neurons, topology[1].neurons, inputs);
    var outputs := LayerPropagate(network.layers[0], inputs).value;
    if |topology| > 2 {
      ShapedTail(network, topology);
      NetworkPropagateShaped(Network(network.layers[1..]), topology[1..], outputs);
    }
  }

  /** An input of the wrong width fails, provided the first layer has a neuron to check it. */
  lemma NetworkPropagateWrongWidth(network: Network, topology: seq<LayerTopology>, inputs: seq<real>)
    requires Shaped(network, topology)
    requires |topology| >= 2
    requires topology[1].neurons > 0
    requires |inputs| != topology[0].neurons
    ensures NetworkPropagate(network, inputs) == None
  {
    LayerPropagateShaped(network.layers[0], topology[0].neurons, topology[1].neurons, inputs);
  }

  /** A freshly built network maps an input of width T[0] to an output of width T[|T| - 1]. */
  lemma RandomNetworkPropagates(draws: seq<real>, topology: seq<LayerTopology>, inputs: seq<real>)
    requires NetworkDraws(topology) <= |draws|
    requires |topology| >= 2
    requires |inputs| == topology[0].neurons
    ensures NetworkPropagate(RandomNetwork(draws, topology).0, inputs).Some?
    ensures |NetworkPropagate(RandomNetwork(draws, topology).0, inputs).value|
         == topology[|topology| - 1].neurons
  {
    RandomNetworkShaped(draws, topology);
    NetworkPropagateShaped(RandomNetwork(draws, topology).0, topology, inputs);
  }
}
