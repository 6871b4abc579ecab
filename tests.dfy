/**
 The scenarios of the unit tests at the end of libs/neural-network/src/lib.rs,
 stated over the model. The construction tests fix a ChaCha8 seed and compare
 numbers; here the draws are left symbolic, so each lemma says which draw
 becomes which bias or weight.
 */
module NeuralNetworkTests {
  import opened NeuralNetwork
  import opened NeuralNetworkProperties

  function Topology321(): seq<LayerTopology>
  {
    [LayerTopology(3), LayerTopology(2), LayerTopology(1)]
  }

  /** `test_neuron_random`: a 4-weight neuron is the first five draws, bias first. */
  lemma NeuronRandomTest(draws: seq<real>)
    requires |draws| >= 5
    ensures RandomNeuron(draws, 4).0 == Neuron(draws[0], [draws[1], draws[2], draws[3], draws[4]])
    ensures RandomNeuron(draws, 4).1 == draws[5..]
  {
    var neuron := RandomNeuron(draws, 4).0;
    assert neuron.weights == draws[1..5];
    assert draws[1..5] == [draws[1], draws[2], draws[3], draws[4]];
  }

  /** `test_layer_random`: two 3-weight neurons built from the first eight draws, in order. */
  lemma LayerRandomTest(draws: seq<real>)
    requires |draws| >= 8
    ensures |RandomLayer(draws, 3, 2).0.neurons| == 2
    ensures RandomLayer(draws, 3, 2).0.neurons[0] == Neuron(draws[0], [draws[1], draws[2], draws[3]])
    ensures RandomLayer(draws, 3, 2).0.neurons[1] == Neuron(draws[4], [draws[5], draws[6], draws[7]])
  {
    var layer := RandomLayer(draws, 3, 2).0;
    RandomLayerNeuronAt(draws, 3, 2, 0);
    RandomLayerNeuronAt(draws, 3, 2, 1);
    assert draws[1..4] == [draws[1], draws[2], draws[3]];
    assert draws[5..8] == [draws[5], draws[6], draws[7]];
  }

  /**
   The two tests above share one seed and expect the same value (0.5238807) for the
   last weight of the 4-weight neuron and for the bias of the layer's second neuron:
   both are the fifth draw.
   */
  lemma NeuronAndLayerTestsAgree(draws: seq<real>)
    requires |draws| >= 8
    ensures RandomLayer(draws, 3, 2).0.neurons[1].bias == RandomNeuron(draws, 4).0.weights[3]
    ensures RandomLayer(draws, 3, 2).0.neurons[0].weights == RandomNeuron(draws, 4).0.weights[..3]
  {
    LayerRandomTest(draws);
    NeuronRandomTest(draws);
  }

  /** Topology [3, 2, 1] consumes eleven draws; its second layer starts at the ninth. */
  lemma Topology321Draws()
    ensures NetworkDraws(Topology321()) == 11
    ensures LayerOffset(Topology321(), 1) == 8
  {
    var topology := Topology321();
    assert topology[1..][1..] == [LayerTopology(1)];
    assert topology[..2] == [LayerTopology(3), LayerTopology(2)];
    assert topology[..2][1..] == [LayerTopology(2)];
  }

  /** Topology [3, 2, 1] gives two layers, and the first is `Layer::random(3, 2)` on the whole stream. */
  lemma NetworkRandomFirstLayer(draws: seq<real>)
    requires |draws| >= 11
    ensures NetworkDraws(Topology321()) <= |draws|
    ensures |RandomNetwork(draws, Topology321()).0.layers| == 2
    ensures RandomNetwork(draws, Topology321()).0.layers[0] == RandomLayer(draws, 3, 2).0
  {
    var topology := Topology321();
    Topology321Draws();
    RandomNetworkShaped(draws, topology);
    var (layer, rest) := RandomLayer(draws, 3, 2);
    var tail := RandomNetwork(rest, topology[1..]).0;
    assert RandomNetwork(draws, topology).0.layers == [layer] + tail.layers;
  }

  /** The second layer of topology [3, 2, 1] is one neuron built from draws 8, 9 and 10. */
  lemma NetworkRandomLastLayer(draws: seq<real>)
    requires |draws| >= 11
    ensures NetworkDraws(Topology321()) <= |draws|
    ensures |RandomNetwork(draws, Topology321()).0.layers| == 2
    ensures RandomNetwork(draws, Topology321()).0.layers[1].neurons
         == [Neuron(draws[8], [draws[9], draws[10]])]
  {
    var topology := Topology321();
    Topology321Draws();
    RandomNetworkShaped(draws, topology);
    var neurons := RandomNetwork(draws, topology).0.layers[1].neurons;
    RandomNetworkNeuronAt(draws, topology, 1, 0);
    assert neurons[0].bias == draws[8];
    assert neurons[0].weights == draws[9..11];
    SliceOfTwo(draws, 9);
    SingletonOf(neurons);
  }

  lemma SliceOfTwo(s: seq<real>, i: nat)
    requires i + 2 <= |s|
    ensures s[i..i + 2] == [s[i], s[i + 1]]
  {
  }

  lemma SingletonOf(neurons: seq<Neuron>)
    requires |neurons| == 1
    ensures neurons == [neurons[0]]
  {
  }

  /**
   `test_network_random`: topology [3, 2, 1] gives two layers, 2 neurons of 3 weights
   and 1 neuron of 2 weights, built from the first eleven draws in order; its first
   layer is the layer of `test_layer_random`.
   */
  lemma NetworkRandomTest(draws: seq<real>)
    requires |draws| >= 11
    ensures NetworkDraws(Topology321()) == 11
    ensures |RandomNetwork(draws, Topology321()).0.layers| == 2
    ensures RandomNetwork(draws, Topology321()).0.layers[0] == RandomLayer(draws, 3, 2).0
    ensures RandomNetwork(draws, Topology321()).0.layers[1].neurons
         == [Neuron(draws[8], [draws[9], draws[10]])]
  {
    Topology321Draws();
    NetworkRandomFirstLayer(draws);
    NetworkRandomLastLayer(draws);
  }

  /** `test_neuron_propagate`: ReLU clamps a negative activation, and passes a positive one. */
  lemma NeuronPropagateTest()
    ensures NeuronPropagate(Neuron(0.5, [-0.3, 0.8]), [-10.0, -10.0]) == Some(0.0)
    ensures NeuronPropagate(Neuron(0.5, [-0.3, 0.8]), [0.5, 1.0]) == Some((-0.3 * 0.5) + (0.8 * 1.0) + 0.5)
  {
    var neuron := Neuron(0.5, [-0.3, 0.8]);
    assert Dot([-10.0, -10.0], neuron.weights) == -5.0;
    assert Dot([0.5, 1.0], neuron.weights) == (-0.3 * 0.5) + (0.8 * 1.0);
  }

  /** `test_layer_propagate`: a one-neuron layer returns that neuron's output. */
  lemma LayerPropagateTest()
    ensures LayerPropagate(Layer([Neuron(0.5, [-0.3, 0.8, 0.5])]), [1.0, 2.0, 3.0])
         == Some([1.0 * (-0.3) + 2.0 * 0.8 + 3.0 * 0.5 + 0.5])
  {
    var neuron := Neuron(0.5, [-0.3, 0.8, 0.5]);
    assert Dot([1.0, 2.0, 3.0], neuron.weights) == 1.0 * (-0.3) + 2.0 * 0.8 + 3.0 * 0.5;
    var out := 1.0 * (-0.3) + 2.0 * 0.8 + 3.0 * 0.5 + 0.5;
    assert NeuronPropagate(neuron, [1.0, 2.0, 3.0]) == Some(out);
    assert Layer([neuron]).neurons[1..] == [];
    assert LayerPropagate(Layer([]), [1.0, 2.0, 3.0]) == Some([]);
    assert [out] + [] == [out];
  }

  /** `test_network_propagate`: the output of the first layer feeds the second. */
  lemma NetworkPropagateTest()
    ensures NetworkPropagate(
              Network([Layer([Neuron(0.5, [-0.3, 0.8, 0.5])]),
                       Layer([Neuron(-0.2, [0.1]), Neuron(0.4, [0.3])])]),
              [1.0, 2.0, 3.0])
         == Some([3.3 * 0.1 - 0.2, 3.3 * 0.3 + 0.4])
  {
    var first := Layer([Neuron(0.5, [-0.3, 0.8, 0.5])]);
    var second := Layer([Neuron(-0.2, [0.1]), Neuron(0.4, [0.3])]);
    LayerPropagateTest();
    assert LayerPropagate(first, [1.0, 2.0, 3.0]) == Some([3.3]);
    assert Dot([3.3], [0.1]) == 3.3 * 0.1;
    assert Dot([3.3], [0.3]) == 3.3 * 0.3;
    assert NeuronPropagate(second.neurons[0], [3.3]) == Some(3.3 * 0.1 - 0.2);
    assert NeuronPropagate(second.neurons[1], [3.3]) == Some(3.3 * 0.3 + 0.4);
    assert second.neurons[1..] == [Neuron(0.4, [0.3])];
    assert Layer([Neuron(0.4, [0.3])]).neurons[1..] == [];
    assert LayerPropagate(Layer([]), [3.3]) == Some([]);
    assert [3.3 * 0.3 + 0.4] + [] == [3.3 * 0.3 + 0.4];
    assert LayerPropagate(Layer([Neuron(0.4, [0.3])]), [3.3]) == Some([3.3 * 0.3 + 0.4]);
    assert [3.3 * 0.1 - 0.2] + [3.3 * 0.3 + 0.4] == [3.3 * 0.1 - 0.2, 3.3 * 0.3 + 0.4];
    assert LayerPropagate(second, [3.3]) == Some([3.3 * 0.1 - 0.2, 3.3 * 0.3 + 0.4]);
    assert Network([first, second]).layers[1..] == [second];
  }
}
