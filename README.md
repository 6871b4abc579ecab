# Feedforward neural network, modelled in Dafny

This project models the `neural-network` library of the repository
(`libs/neural-network/src/lib.rs`). It covers:

- the `Network`, `Layer`, `Neuron` and `LayerTopology` types;
- randomized construction: `Network::random` builds one `Layer::random` per
  adjacent pair of a topology, and `Layer::random` builds `output_neurons`
  calls of `Neuron::random`, each drawing a bias and then its weights from a
  random number generator;
- forward propagation: `Neuron::propagate` is a ReLU of bias plus dot
  product, `Layer::propagate` runs every neuron on the same inputs, and
  `Network::propagate` is a left fold of the layers over the input.

The library is written as iterator chains (`windows(2)`, `map`, `collect`,
`zip`, `sum`, `fold`) and updates no fields. The model is therefore pure:
datatypes, recursive functions and lemmas.

- Values are `real`.
- The generator is the sequence of draws it still has to give. Every
  constructor takes that sequence and returns the value it built together
  with the draws it did not use. Construction is then a total function of the
  topology and the draw sequence.
- The panic of `assert_eq!` in `Neuron::propagate` is modelled as `None`.
  A layer or network in which some neuron panics also gives `None`.

Files:

- `network.dfy` (module `NeuralNetwork`): the types, construction and
  propagation, with the contracts that belong to one call. It also defines
  the reference functions: `Dot` is the dot product and
  `NeuronParams`/`NeuronsParams`/`LayersParams` give the parameters of a
  neuron, layer or network in drawing order.
- `properties.dfy` (module `NeuralNetworkProperties`): lemmas on shapes,
  draw counts, draw order, reproducibility, the range of parameters, and
  propagation.
- `tests.dfy` (module `NeuralNetworkTests`): the scenarios of the library's
  unit tests, restated over the model. The numeric values from the generator
  stay symbolic.

Two behaviours follow the code closely:

- A topology with fewer than two entries gives a network with no layers.
  `windows(2)` yields nothing in that case, and the code does not reject it.
- Propagating an input of the wrong width fails only when the first layer
  has a neuron. A layer with no neurons maps every input to the empty vector.

## Model

| member | source | states |
|---|---|---|
| NeuralNetwork.DrawMany | libs/neural-network/src/lib.rs:92-94 | drawing `n` values takes exactly the next `n` draws in order and leaves the rest: the result has length `n`, and the result followed by the leftover is the input stream |
| NeuralNetwork.RandomNeuron | libs/neural-network/src/lib.rs:89-97 | `Neuron::random(k)` uses the first draw as the bias and the next `k` draws as the weights; it consumes exactly `1 + k` draws, and the neuron's parameters followed by the leftover rebuild the stream |
| NeuralNetwork.RandomNeurons | libs/neural-network/src/lib.rs:55-57 | `output` neurons built in sequence have `input` weights each, and together consume exactly `LayerDraws(input, output)` draws, neuron after neuron, with nothing skipped or reordered |
| NeuralNetwork.RandomLayer | libs/neural-network/src/lib.rs:52-60 | `Layer::random(in, out)` has `out` neurons of `in` weights, and its parameters in drawing order followed by the leftover are the stream it was given |
| NeuralNetwork.RandomNetwork | libs/neural-network/src/lib.rs:10-31 | `Network::random` consumes exactly `NetworkDraws(topology)` draws, layer after layer: the network's parameters in drawing order followed by the leftover are the stream it was given |
| NeuralNetwork.Relu | libs/neural-network/src/lib.rs:122 | `x.max(0.0)` is at least 0 and at least `x`, and equals one of them |
| NeuralNetwork.SumProducts | libs/neural-network/src/lib.rs:115-119 | the left-to-right sum of `input * weight` over the zipped sequences, started from `acc`, equals `acc` plus the reference dot product `Dot` |
| NeuralNetwork.NeuronPropagate | libs/neural-network/src/lib.rs:98-123 | succeeds exactly when the input width equals the number of weights (otherwise the `assert_eq!` panics); the output is `max(0, bias + Σ inputs[i]*weights[i])` and so is never negative |
| NeuralNetwork.LayerPropagate | libs/neural-network/src/lib.rs:62-80 | succeeds exactly when every neuron accepts the input width; the output has one entry per neuron, and entry `j` is neuron `j`'s output on the same inputs |
| NeuralNetwork.NetworkPropagate | libs/neural-network/src/lib.rs:32-44 | with no layers the input is returned unchanged; otherwise a successful output has as many entries as the last layer has neurons, all of them non-negative |
| NeuralNetworkProperties.LayerDrawsProduct | libs/neural-network/src/lib.rs:55-57 | a layer of `out` neurons with `in` weights each consumes `(1 + in) * out` draws |
| NeuralNetworkProperties.LayerDrawsMonotone | libs/neural-network/src/lib.rs:55-57 | the first `a` neurons of a layer consume no more draws than the first `b >= a` |
| NeuralNetworkProperties.LayerOffsetStep | libs/neural-network/src/lib.rs:23-28 | the draws used before layer `i` are the draws of the first layer plus the draws used before layer `i - 1` of the rest of the topology |
| NeuralNetworkProperties.ShapedWidthCompatible | libs/neural-network/src/lib.rs:26 | in a network shaped by a topology, each neuron of layer `i > 0` has as many weights as layer `i - 1` has neurons |
| NeuralNetworkProperties.RandomNetworkShaped | libs/neural-network/src/lib.rs:23-28 | `Network::random` builds `|topology| - 1` layers (none for a topology shorter than 2); layer `i` has `topology[i+1]` neurons of `topology[i]` weights each, so adjacent layers are width-compatible |
| NeuralNetworkProperties.NeuronsParamsAt | libs/neural-network/src/lib.rs:55-57 | in the parameters of a shaped layer, neuron `j`'s bias is at position `LayerDraws(in, j)` and its weights follow it |
| NeuralNetworkProperties.LayersParamsAt | libs/neural-network/src/lib.rs:23-28 | in the parameters of a shaped network, layer `i` occupies the block that starts after the draws of layers `0..i` |
| NeuralNetworkProperties.RandomLayerNeuronAt | libs/neural-network/src/lib.rs:55-57 | in `Layer::random(in, out)`, neuron `j`'s bias is the draw right after the `LayerDraws(in, j)` draws of the neurons before it (`(1 + in) * j` of them), and its weights are the `in` draws after that bias |
| NeuralNetworkProperties.NetworkParamsAt | libs/neural-network/src/lib.rs:23-28 | in the parameters of any shaped network, neuron `j` of layer `i` has its bias after the draws of the layers and neurons before it, and its weights right after that bias |
| NeuralNetworkProperties.RandomNetworkNeuronAt | libs/neural-network/src/lib.rs:10-31 | in `Network::random`, neuron `j` of layer `i` exists, its bias is the draw right after those of the earlier layers and neurons, and its weights are the draws that follow |
| NeuralNetworkProperties.NeuronsParamsInjective | libs/neural-network/src/lib.rs:89-97 | two lists of neurons of one shape with the same parameters are equal |
| NeuralNetworkProperties.LayersParamsInjective | libs/neural-network/src/lib.rs:48-50 | two networks shaped by one topology with the same parameters are equal |
| NeuralNetworkProperties.RandomNetworkDeterminedByDraws | libs/neural-network/src/lib.rs:10-31 | the network built for a topology is determined by the draws: two streams give the same network if and only if they agree on their first `NetworkDraws(topology)` draws |
| NeuralNetworkProperties.InUnitRangeConcat | libs/neural-network/src/lib.rs:90-93 | a concatenation of draws lies in [-1, 1] if and only if both parts do |
| NeuralNetworkProperties.RandomNetworkInUnitRange | libs/neural-network/src/lib.rs:90-93 | when every draw lies in [-1, 1] (`gen_range(-1.0..=1.0)`), every bias and weight of the built network does too |
| NeuralNetworkProperties.LayerPropagateShaped | libs/neural-network/src/lib.rs:62-80 | a layer of `out` neurons of `in` weights succeeds exactly when it has no neurons or the input has width `in`, and then gives `out` outputs |
| NeuralNetworkProperties.NetworkPropagateAppend | libs/neural-network/src/lib.rs:41-43 | fold law: propagating through layers `a + b` propagates through `a`, then feeds a successful result through `b`; a failure in `a` is a failure |
| NeuralNetworkProperties.NetworkPropagateShaped | libs/neural-network/src/lib.rs:32-44 | a network shaped by a topology of at least two entries accepts an input of width `topology[0]` and returns `topology[|topology|-1]` outputs |
| NeuralNetworkProperties.NetworkPropagateWrongWidth | libs/neural-network/src/lib.rs:99 | when the first layer of a shaped network has a neuron, an input of the wrong width makes propagation fail |
| NeuralNetworkProperties.RandomNetworkPropagates | libs/neural-network/src/lib.rs:10-44 | a network built by `Network::random` accepts an input of width `topology[0]` and returns `topology[|topology|-1]` outputs |
| NeuralNetworkTests.NeuronRandomTest | libs/neural-network/src/lib.rs:138-144 | a neuron with 4 weights is the first five draws, bias first, and leaves the rest of the stream |
| NeuralNetworkTests.LayerRandomTest | libs/neural-network/src/lib.rs:147-160 | `Layer::random(3, 2)` has two neurons of three weights, built from draws 0-3 and 4-7 |
| NeuralNetworkTests.NeuronAndLayerTestsAgree | libs/neural-network/src/lib.rs:143-159 | the bias of the layer's second neuron is the last weight of the 4-weight neuron (both are the fifth draw), and the layer's first neuron has the 4-weight neuron's first three weights |
| NeuralNetworkTests.Topology321Draws | libs/neural-network/src/lib.rs:165-171 | topology [3, 2, 1] consumes 11 draws, and its second layer starts at draw 8 |
| NeuralNetworkTests.NetworkRandomTest | libs/neural-network/src/lib.rs:163-198 | topology [3, 2, 1] gives two layers; the first is `Layer::random(3, 2)` on the same stream, the second is one neuron built from draws 8, 9 and 10 |
| NeuralNetworkTests.NeuronPropagateTest | libs/neural-network/src/lib.rs:209-219 | ReLU clamps the negative activation of input [-10, -10] to 0 and passes `-0.3*0.5 + 0.8*1.0 + 0.5` through |
| NeuralNetworkTests.LayerPropagateTest | libs/neural-network/src/lib.rs:222-234 | a one-neuron layer on [1, 2, 3] returns `[1*(-0.3) + 2*0.8 + 3*0.5 + 0.5]` |
| NeuralNetworkTests.NetworkPropagateTest | libs/neural-network/src/lib.rs:237-269 | the first layer's output 3.3 feeds both neurons of the second layer, giving `[3.3*0.1 - 0.2, 3.3*0.3 + 0.4]` |

## Left out

- `libs/genetic-algorithm/src/lib.rs` is not part of this model. Its `evolve` is `todo!()` and `SelectionMethod` has no implementations, so it has no behaviour to model beyond an assertion that the population is not empty.
- `f32` arithmetic is not modelled: there is no rounding, no NaN behaviour of `f32::max`, and no `approx` relative equality. Values are exact `real`s, so the test expectations hold exactly.
- The ChaCha8 generator and `gen_range` float sampling are foreign code. Their concrete test values (such as -0.6255188) are not modelled. The tests keep the draws symbolic and state which draw becomes which parameter.
- The generator never runs out. The model instead requires that the draw sequence hold at least as many draws as the construction consumes (`NetworkDraws(topology) <= |draws|`), and that count is proved exact.
- RandomNetworkInUnitRange: the range [-1, 1] of `gen_range(-1.0..=1.0)` is an assumption on the draws (`InUnitRange(draws)`), because the generator is not modelled.
- The commented-out loop versions of construction and propagation are not modelled, because they are not live code.
- A panic is modelled as `None`. The model does not capture the panic message, and it does not say which neuron panics first.
