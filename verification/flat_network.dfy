/**
  The flat `neural_network` class of neural_network.hpp: one weight array,
  one output array and one delta array shared by all layers, addressed
  through the offset tables `nidx` and `widx` (module FlatLayout).

  The arrays are modelled as sequences and every member function as a
  method that returns the updated object, so that each contract speaks
  about the values the arrays hold afterwards.
*/
module FlatNetwork {
  import opened FlatLayout

  /** The members of `neural_network` (the unused `error` array is left out). */
  datatype Net = Net(
    sizes: seq<nat>,     // layer_size
    nidx: seq<nat>,
    widx: seq<nat>,
    weight: seq<real>,
    output: seq<real>,
    delta: seq<real>)

  /** The arrays have the sizes `WEIGHTS_SPACE` and `NEURONS` the width table gives them. */
  predicate Sized(net: Net)
  {
    && ValidSizes(net.sizes)
    && |net.weight| == WeightEnd(net.sizes, |net.sizes| - 2)
    && |net.output| == NeuronEnd(net.sizes, |net.sizes| - 2)
    && |net.delta| == NeuronEnd(net.sizes, |net.sizes| - 2)
  }

  /** A constructed object: sized arrays and offset tables holding the region starts. */
  predicate Valid(net: Net)
  {
    && Sized(net)
    && |net.nidx| == LayerCount(net.sizes)
    && |net.widx| == LayerCount(net.sizes)
    && (forall l :: 0 <= l < |net.nidx| ==> net.nidx[l] == NeuronOffset(net.sizes, l))
    && (forall l :: 0 <= l < |net.widx| ==> net.widx[l] == WeightOffset(net.sizes, l))
  }

  /** The last layer, `LAYERS - 1`. */
  function Last(net: Net): nat
    requires ValidSizes(net.sizes)
  {
    |net.sizes| - 2
  }

  // ---------------------------------------------------------------------------
  // Construction
  // ---------------------------------------------------------------------------

  /**
    The constructor. `rand` is the stream of values the C library's `rand()`
    returns, indexed by call number, and `start` is the number of calls made
    before; `next` is the number made after. The output and delta arrays,
    which the constructor leaves indeterminate, are modelled as zeros.
  */
  method NewNetwork(inputs: nat, hiddens: seq<nat>, outputs: nat, rand: nat -> nat, randMax: nat, start: nat)
    returns (net: Net, next: nat)
    requires |hiddens| >= 1 && randMax > 0
    ensures Valid(net)
    ensures net.sizes == Sizes(inputs, hiddens, outputs)
    ensures |net.weight| == WeightsSpace(inputs, hiddens, outputs)
    ensures |net.output| == Neurons(hiddens, outputs) && |net.delta| == Neurons(hiddens, outputs)
    ensures forall i :: 0 <= i < |net.weight| ==> net.weight[i] == rand(start + i) as real / randMax as real
    ensures next == start + |net.weight|
  {
    var sz := Sizes(inputs, hiddens, outputs);
    var nidx := NeuronOffsets(sz);
    var widx := WeightOffsets(sz);
    var space := WeightsSpace(inputs, hiddens, outputs);
    var weight := RandomWeights(space, rand, randMax, start);
    var neurons := Neurons(hiddens, outputs);
    LastWeightEnd(inputs, hiddens, outputs);
    LastNeuronEnd(inputs, hiddens, outputs);
    net := Net(sz, nidx, widx, weight, seq(neurons, _ => 0.0), seq(neurons, _ => 0.0));
    next := start + space;
  }

  /** The first loop of the constructor: `nidx[0] = 0`, then each start is the previous start plus the previous layer's width. */
  method NeuronOffsets(sz: seq<nat>) returns (nidx: seq<nat>)
    requires ValidSizes(sz)
    ensures |nidx| == LayerCount(sz)
    ensures forall l :: 0 <= l < |nidx| ==> nidx[l] == NeuronOffset(sz, l)
  {
    nidx := [0];
    var layer := 1;
    while layer < |sz| - 1
      invariant 1 <= layer <= |sz| - 1 && |nidx| == layer
      invariant forall l :: 0 <= l < layer ==> nidx[l] == NeuronOffset(sz, l)
    {
      assert sz[layer] + nidx[layer - 1] == NeuronOffset(sz, layer);
      nidx := nidx + [sz[layer] + nidx[layer - 1]];
      layer := layer + 1;
    }
  }

  /** The second loop of the constructor: `widx[0] = 0`, then each start is the previous start plus the previous layer's weight count. */
  method WeightOffsets(sz: seq<nat>) returns (widx: seq<nat>)
    requires ValidSizes(sz)
    ensures |widx| == LayerCount(sz)
    ensures forall l :: 0 <= l < |widx| ==> widx[l] == WeightOffset(sz, l)
  {
    widx := [0];
    var layer := 1;
    while layer < |sz| - 1
      invariant 1 <= layer <= |sz| - 1 && |widx| == layer
      invariant forall l :: 0 <= l < layer ==> widx[l] == WeightOffset(sz, l)
    {
      assert (sz[layer - 1] + 1) * sz[layer] + widx[layer - 1] == WeightOffset(sz, layer);
      widx := widx + [(sz[layer - 1] + 1) * sz[layer] + widx[layer - 1]];
      layer := layer + 1;
    }
  }

  /** The third loop of the constructor: weight `i` is the `i`-th `rand()` value divided by `RAND_MAX`. */
  method RandomWeights(space: nat, rand: nat -> nat, randMax: nat, start: nat) returns (weight: seq<real>)
    requires randMax > 0
    ensures |weight| == space
    ensures forall i :: 0 <= i < space ==> weight[i] == rand(start + i) as real / randMax as real
  {
    weight := [];
    var i := 0;
    while i < space
      invariant 0 <= i <= space && |weight| == i
      invariant forall k :: 0 <= k < i ==> weight[k] == rand(start + k) as real / randMax as real
    {
      weight := weight + [rand(start + i) as real / randMax as real];
      i := i + 1;
    }
  }

  /** With every `rand()` value in `[0, RAND_MAX]`, every initial weight lies in `[0, 1]`. */
  lemma InitialWeightsInUnit(inputs: nat, hiddens: seq<nat>, outputs: nat, rand: nat -> nat, randMax: nat, start: nat, net: Net)
    requires randMax > 0
    requires forall k :: rand(k) <= randMax
    requires forall i :: 0 <= i < |net.weight| ==> net.weight[i] == rand(start + i) as real / randMax as real
    ensures forall i :: 0 <= i < |net.weight| ==> 0.0 <= net.weight[i] <= 1.0
  {
    forall i | 0 <= i < |net.weight|
      ensures 0.0 <= net.weight[i] <= 1.0
    {
      QuotientInUnit(rand(start + i) as real, randMax as real);
    }
  }

  lemma QuotientInUnit(v: real, m: real)
    requires 0.0 <= v <= m && 0.0 < m
    ensures 0.0 <= v / m <= 1.0
  {
    assert v / m * m == v;
  }

  // ---------------------------------------------------------------------------
  // Views of the arrays
  // ---------------------------------------------------------------------------

  /** `output + nidx[l]`: the output slots of the neurons of layer `l`. */
  function LayerOutputs(net: Net, l: nat): (r: seq<real>)
    requires Sized(net) && l <= Last(net)
    ensures |r| == net.sizes[l + 1]
  {
    NeuronEndsBelowLast(net.sizes, l);
    net.output[NeuronOffset(net.sizes, l) .. NeuronEnd(net.sizes, l)]
  }

  /** `delta + nidx[l]`: the delta slots of the neurons of layer `l`. */
  function LayerDeltas(net: Net, l: nat): (r: seq<real>)
    requires Sized(net) && l <= Last(net)
    ensures |r| == net.sizes[l + 1]
  {
    NeuronEndsBelowLast(net.sizes, l);
    net.delta[NeuronOffset(net.sizes, l) .. NeuronEnd(net.sizes, l)]
  }

  /** `weight + widx[l] + n * (n_inputs + 1)`: the row of neuron `n` of layer `l`, its bias weight last. */
  function Row(sz: seq<nat>, weight: seq<real>, l: nat, n: nat): (r: seq<real>)
    requires ValidSizes(sz) && |weight| == WeightEnd(sz, |sz| - 2) && l < |sz| - 1 && n < sz[l + 1]
    ensures |r| == sz[l] + 1
  {
    LayerRowsInside(sz, l);
    weight[WeightIndex(sz, l, n, 0) .. WeightIndex(sz, l, n, sz[l]) + 1]
  }

  // ---------------------------------------------------------------------------
  // The forward pass as a reference definition
  // ---------------------------------------------------------------------------

  /** `Σ_{i < k} xs[i] * row[i]`, accumulated left to right. */
  function WeightedSum(xs: seq<real>, row: seq<real>, k: nat): real
    requires k <= |xs| && k <= |row|
  {
    if k == 0 then 0.0 else WeightedSum(xs, row, k - 1) + xs[k - 1] * row[k - 1]
  }

  /** A neuron's activation: the weighted inputs plus the bias weight (the last of its row) times 1. */
  function Activation(xs: seq<real>, row: seq<real>): real
    requires |row| == |xs| + 1
  {
    WeightedSum(xs, row, |xs|) + 1.0 * row[|xs|]
  }

  /** What layer `l` reads: the caller's input for layer 0, otherwise the signal of layer `l - 1`. */
  function LayerInput(net: Net, input: seq<real>, act: real -> real, l: nat): (r: seq<real>)
    requires Sized(net) && l <= Last(net) + 1 && |input| >= net.sizes[0]
    ensures |r| == net.sizes[l]
    decreases l, 0
  {
    if l == 0 then input[..net.sizes[0]] else Signal(net, input, act, l - 1)
  }

  /** The outputs `act(activation)` of the neurons of layer `l` under the weights of `net`. */
  function Signal(net: Net, input: seq<real>, act: real -> real, l: nat): (r: seq<real>)
    requires Sized(net) && l <= Last(net) && |input| >= net.sizes[0]
    ensures |r| == net.sizes[l + 1]
    decreases l, 1
  {
    var xs := LayerInput(net, input, act, l);
    seq(net.sizes[l + 1], n requires 0 <= n < net.sizes[l + 1] => Fire(net, xs, act, l, n))
  }

  /** What neuron `n` of layer `l` outputs when the layer reads `xs`: `act` of its activation. */
  function Fire(net: Net, xs: seq<real>, act: real -> real, l: nat, n: nat): real
    requires Sized(net) && l <= Last(net) && |xs| == net.sizes[l] && n < net.sizes[l + 1]
  {
    act(Activation(xs, Row(net.sizes, net.weight, l, n)))
  }

  // ---------------------------------------------------------------------------
  // predict
  // ---------------------------------------------------------------------------

  /** The innermost loop of `predict`: one neuron's activation, read from its row at `base`. */
  method NeuronActivation(xs: seq<real>, w: seq<real>, base: nat) returns (a: real)
    requires base + |xs| < |w|
    ensures a == Activation(xs, w[base .. base + |xs| + 1])
  {
    ghost var row := w[base .. base + |xs| + 1];
    a := 0.0;
    var i := 0;
    while i < |xs|
      invariant 0 <= i <= |xs|
      invariant a == WeightedSum(xs, row, i)
    {
      a := a + xs[i] * w[base + i];
      i := i + 1;
    }
    a := a + 1.0 * w[base + i];
  }

  /** The output of one neuron: its weighted sum over the row, passed through `act`. */
  method FeedNeuron(net: Net, l: nat, xs: seq<real>, neuron: nat, act: real -> real) returns (v: real)
    requires Valid(net) && l <= Last(net) && |xs| == net.sizes[l] && neuron < net.sizes[l + 1]
    ensures v == Fire(net, xs, act, l, neuron)
  {
    var sz := net.sizes;
    var base := net.widx[l] + neuron * (sz[l] + 1);
    assert base == RowStart(sz, l, neuron);
    WeightIndexInRegion(sz, l, neuron, sz[l]);
    WeightEndsBelowLast(sz, l);
    var a := NeuronActivation(xs, net.weight, base);
    assert net.weight[base .. base + sz[l] + 1] == Row(sz, net.weight, l, neuron);
    v := act(a);
  }

  /**
    One iteration of the layer loop of `predict`: every neuron of layer `l`
    stores `act` of its activation in its output slot, and no other output
    slot changes.
  */
  method FeedLayer(net: Net, l: nat, xs: seq<real>, act: real -> real) returns (r: Net)
    requires Valid(net) && l <= Last(net) && |xs| == net.sizes[l]
    ensures Valid(r) && r == net.(output := r.output)
    ensures forall n :: 0 <= n < net.sizes[l + 1] ==> LayerOutputs(r, l)[n] == Fire(net, xs, act, l, n)
    ensures forall k :: 0 <= k < |r.output| && (k < NeuronOffset(net.sizes, l) || NeuronEnd(net.sizes, l) <= k) ==>
              r.output[k] == net.output[k]
  {
    var sz := net.sizes;
    var nOutputs := sz[l + 1];
    var o := net.nidx[l];
    NeuronEndsBelowLast(sz, l);
    var out := net.output;
    var neuron := 0;
    while neuron < nOutputs
      invariant 0 <= neuron <= nOutputs && |out| == |net.output|
      invariant forall n :: 0 <= n < neuron ==> out[o + n] == Fire(net, xs, act, l, n)
      invariant forall k :: 0 <= k < |out| && (k < o || o + neuron <= k) ==> out[k] == net.output[k]
    {
      var v := FeedNeuron(net, l, xs, neuron, act);
      out := out[o + neuron := v];
      neuron := neuron + 1;
    }
    r := net.(output := out);
    FedOutputs(net, r, l, xs, act);
  }

  lemma FedOutputs(net: Net, r: Net, l: nat, xs: seq<real>, act: real -> real)
    requires Valid(net) && l <= Last(net) && |xs| == net.sizes[l]
    requires r == net.(output := r.output) && |r.output| == |net.output| && NeuronEnd(net.sizes, l) <= |r.output|
    requires forall n :: 0 <= n < net.sizes[l + 1] ==>
               r.output[NeuronOffset(net.sizes, l) + n] == Fire(net, xs, act, l, n)
    ensures Sized(r)
    ensures forall n :: 0 <= n < net.sizes[l + 1] ==> LayerOutputs(r, l)[n] == Fire(net, xs, act, l, n)
  {
    forall n | 0 <= n < net.sizes[l + 1]
      ensures LayerOutputs(r, l)[n] == r.output[NeuronOffset(net.sizes, l) + n]
    {
    }
  }

  /**
    `predict`: runs the layers in order, each reading what the previous one
    stored. Afterwards the output slots of every layer hold its signal, only
    the output array has changed, and the result is the last layer's signal.
  */
  method Predict(net: Net, input: seq<real>, act: real -> real) returns (r: Net, result: seq<real>)
    requires Valid(net) && |input| >= net.sizes[0]
    ensures Valid(r) && r == net.(output := r.output)
    ensures forall l :: 0 <= l <= Last(net) ==> LayerOutputs(r, l) == Signal(net, input, act, l)
    ensures result == Signal(net, input, act, Last(net))
    ensures |result| == net.sizes[|net.sizes| - 1]
  {
    var xs := input[..net.sizes[0]];
    r := net;
    var layer := 0;
    while layer <= Last(net)
      invariant 0 <= layer <= Last(net) + 1
      invariant Valid(r) && r == net.(output := r.output)
      invariant xs == LayerInput(net, input, act, layer)
      invariant forall l :: 0 <= l < layer ==> LayerOutputs(r, l) == Signal(net, input, act, l)
    {
      r, xs := PredictLayer(net, r, xs, input, act, layer);
      layer := layer + 1;
    }
    InputIsSignal(net, input, act, Last(net));
    result := xs;
  }

  /** One round of `predict`'s loop: feed layer `layer` and read back what it stored as the next layer's input. */
  method PredictLayer(net: Net, r: Net, xs: seq<real>, input: seq<real>, act: real -> real, layer: nat)
    returns (next: Net, ys: seq<real>)
    requires Valid(net) && |input| >= net.sizes[0] && layer <= Last(net)
    requires Valid(r) && r == net.(output := r.output)
    requires xs == LayerInput(net, input, act, layer)
    requires forall l :: 0 <= l < layer ==> LayerOutputs(r, l) == Signal(net, input, act, l)
    ensures Valid(next) && next == net.(output := next.output)
    ensures ys == LayerInput(net, input, act, layer + 1)
    ensures forall l :: 0 <= l <= layer ==> LayerOutputs(next, l) == Signal(net, input, act, l)
  {
    next := FeedLayer(r, layer, xs, act);
    FedLayers(net, r, next, input, act, layer);
    var o := r.nidx[layer];
    NeuronEndsBelowLast(net.sizes, layer);
    ys := next.output[o .. o + net.sizes[layer + 1]];
    assert ys == LayerOutputs(next, layer);
    InputIsSignal(net, input, act, layer);
  }

  lemma InputIsSignal(net: Net, input: seq<real>, act: real -> real, l: nat)
    requires Sized(net) && l <= Last(net) && |input| >= net.sizes[0]
    ensures LayerInput(net, input, act, l + 1) == Signal(net, input, act, l)
  {
  }
  /** Feeding layer `layer` computes its signal and leaves the layers before it as they were. */
  lemma FedLayers(net: Net, r: Net, next: Net, input: seq<real>, act: real -> real, layer: nat)
    requires Sized(net) && layer <= Last(net) && |input| >= net.sizes[0]
    requires Sized(r) && r == net.(output := r.output) && Sized(next) && next == net.(output := next.output)
    requires forall l :: 0 <= l < layer ==> LayerOutputs(r, l) == Signal(net, input, act, l)
    requires forall n :: 0 <= n < net.sizes[layer + 1] ==>
               LayerOutputs(next, layer)[n] == Fire(net, LayerInput(net, input, act, layer), act, layer, n)
    requires forall k :: 0 <= k < |next.output| && k < NeuronOffset(net.sizes, layer) ==> next.output[k] == r.output[k]
    ensures forall l :: 0 <= l <= layer ==> LayerOutputs(next, l) == Signal(net, input, act, l)
  {
    forall l | 0 <= l < layer
      ensures LayerOutputs(next, l) == Signal(net, input, act, l)
    {
      EarlierLayerKept(r, next, l, layer);
    }
    assert LayerOutputs(next, layer) == Signal(net, input, act, layer);
  }

  lemma EarlierLayerKept(r: Net, next: Net, l: nat, layer: nat)
    requires Sized(r) && Sized(next) && r.sizes == next.sizes && l < layer <= Last(r)
    requires forall k :: 0 <= k < |next.output| && k < NeuronOffset(r.sizes, layer) ==> next.output[k] == r.output[k]
    ensures LayerOutputs(next, l) == LayerOutputs(r, l)
  {
    NeuronRegionsOrdered(r.sizes, l, layer);
    NeuronEndsBelowLast(r.sizes, l);
  }


  // ---------------------------------------------------------------------------
  // Single slots
  // ---------------------------------------------------------------------------

  /** `output[nidx[l] + n]`. */
  function OutputAt(net: Net, l: nat, n: nat): real
    requires Sized(net) && l <= Last(net) && n < net.sizes[l + 1]
  {
    NeuronEndsBelowLast(net.sizes, l);
    net.output[NeuronIndex(net.sizes, l, n)]
  }

  /** `delta[nidx[l] + n]`. */
  function DeltaAt(net: Net, l: nat, n: nat): real
    requires Sized(net) && l <= Last(net) && n < net.sizes[l + 1]
  {
    NeuronEndsBelowLast(net.sizes, l);
    net.delta[NeuronIndex(net.sizes, l, n)]
  }

  /** `weight[widx[l] + n * (layer_size[l] + 1) + i]`: weight `i` of neuron `n` of layer `l`. */
  function WeightAt(sz: seq<nat>, weight: seq<real>, l: nat, n: nat, i: nat): real
    requires ValidSizes(sz) && |weight| == WeightEnd(sz, |sz| - 2) && l < |sz| - 1 && n < sz[l + 1] && i <= sz[l]
  {
    WeightIndexInRegion(sz, l, n, i);
    WeightEndsBelowLast(sz, l);
    weight[WeightIndex(sz, l, n, i)]
  }

  // ---------------------------------------------------------------------------
  // The training rules as a reference definition
  // ---------------------------------------------------------------------------

  /** What weight `i` of a row multiplies: input `i`, or the constant 1 for the bias weight. */
  function InputOrOne(xs: seq<real>, i: nat): real
    requires i <= |xs|
  {
    if i < |xs| then xs[i] else 1.0
  }

  /**
    `error` of neuron `n` of hidden layer `l` summed over the first `k`
    neurons of layer `l + 1`: each one's delta times the weight with which
    it reads neuron `n`.
  */
  function BackSum(net: Net, l: nat, n: nat, k: nat): real
    requires Sized(net) && l < Last(net) && n < net.sizes[l + 1] && k <= net.sizes[l + 2]
  {
    if k == 0 then 0.0
    else BackSum(net, l, n, k - 1) + BackTerm(net, l, n, k - 1)
  }

  /** What neuron `j` of layer `l + 1` hands back to neuron `n` of layer `l`: its delta times the weight joining them. */
  function BackTerm(net: Net, l: nat, n: nat, j: nat): real
    requires Sized(net) && l < Last(net) && n < net.sizes[l + 1] && j < net.sizes[l + 2]
  {
    DeltaAt(net, l + 1, j) * WeightAt(net.sizes, net.weight, l + 1, j, n)
  }

  /**
    What neuron `n` of layer `l` is blamed for: the distance from the answer
    in the output layer, the back-propagated error in a hidden layer.
  */
  function Blame(net: Net, answer: seq<real>, l: nat, n: nat): real
    requires Sized(net) && l <= Last(net) && n < net.sizes[l + 1] && |answer| >= net.sizes[Last(net) + 1]
  {
    if l == Last(net) then answer[n] - OutputAt(net, l, n)
    else BackSum(net, l, n, net.sizes[l + 2])
  }

  /** The delta the rule gives neuron `n` of layer `l`: its blame times `dact` of its stored output. */
  function DeltaDue(net: Net, answer: seq<real>, l: nat, dact: real -> real, n: nat): real
    requires Sized(net) && l <= Last(net) && n < net.sizes[l + 1] && |answer| >= net.sizes[Last(net) + 1]
  {
    Blame(net, answer, l, n) * dact(OutputAt(net, l, n))
  }

  /** How far `train` moves a weight that reads `x`: `x * delta * rate`. */
  function Nudge(x: real, delta: real, rate: real): real
  {
    x * delta * rate
  }

  /** Neuron `n` of layer `l` holds its blame times the slope `dact` at its output as its delta. */
  predicate DeltaFollows(net: Net, answer: seq<real>, l: nat, dact: real -> real, n: nat)
    requires Sized(net) && l <= Last(net) && n < net.sizes[l + 1] && |answer| >= net.sizes[Last(net) + 1]
  {
    DeltaAt(net, l, n) == DeltaDue(net, answer, l, dact, n)
  }

  /**
    Neurons `0 .. count - 1` of layer `l` follow the delta rule. Stated
    neuron by neuron, so that a proof unfolds only the neurons it looks at;
    `DeltasUpToMeans` gives the pointwise reading.
  */
  predicate DeltasUpTo(net: Net, answer: seq<real>, l: nat, dact: real -> real, count: nat)
    requires Sized(net) && l <= Last(net) && count <= net.sizes[l + 1] && |answer| >= net.sizes[Last(net) + 1]
    decreases count
  {
    count == 0 || (DeltasUpTo(net, answer, l, dact, count - 1) && DeltaFollows(net, answer, l, dact, count - 1))
  }

  /** Every delta of layer `l` is its blame times the slope `dact` at its output. */
  predicate DeltaRule(net: Net, answer: seq<real>, l: nat, dact: real -> real)
    requires Sized(net) && l <= Last(net) && |answer| >= net.sizes[Last(net) + 1]
  {
    DeltasUpTo(net, answer, l, dact, net.sizes[l + 1])
  }

  lemma {:induction false} DeltasUpToMeans(net: Net, answer: seq<real>, l: nat, dact: real -> real, count: nat)
    requires Sized(net) && l <= Last(net) && count <= net.sizes[l + 1] && |answer| >= net.sizes[Last(net) + 1]
    ensures DeltasUpTo(net, answer, l, dact, count) <==> forall n :: 0 <= n < count ==> DeltaFollows(net, answer, l, dact, n)
    decreases count
  {
    if count > 0 {
      DeltasUpToMeans(net, answer, l, dact, count - 1);
    }
  }

  /** The delta rule of a layer holds exactly when every neuron of the layer follows it. */
  lemma DeltaRuleMeans(net: Net, answer: seq<real>, l: nat, dact: real -> real)
    requires Sized(net) && l <= Last(net) && |answer| >= net.sizes[Last(net) + 1]
    ensures DeltaRule(net, answer, l, dact) <==> forall n :: 0 <= n < net.sizes[l + 1] ==> DeltaFollows(net, answer, l, dact, n)
  {
    DeltasUpToMeans(net, answer, l, dact, net.sizes[l + 1]);
  }

  /**
    Every weight of neuron `n` of layer `l` has moved from its value in
    `before` by what it multiplies (taken from `xs`), times the neuron's
    delta, times the rate.
  */
  predicate RowMoved(net: Net, before: seq<real>, xs: seq<real>, l: nat, rate: real, n: nat)
    requires Sized(net) && l <= Last(net) && |before| == |net.weight| && |xs| == net.sizes[l] && n < net.sizes[l + 1]
  {
    forall i :: 0 <= i <= net.sizes[l] ==>
      WeightAt(net.sizes, net.weight, l, n, i) == WeightAt(net.sizes, before, l, n, i) + Nudge(InputOrOne(xs, i), DeltaAt(net, l, n), rate)
  }

  /** Rows `0 .. count - 1` of layer `l` have moved by the weight rule; `RowsUpToMeans` gives the pointwise reading. */
  predicate RowsUpTo(net: Net, before: seq<real>, xs: seq<real>, l: nat, rate: real, count: nat)
    requires Sized(net) && l <= Last(net) && |before| == |net.weight| && |xs| == net.sizes[l] && count <= net.sizes[l + 1]
    decreases count
  {
    count == 0 || (RowsUpTo(net, before, xs, l, rate, count - 1) && RowMoved(net, before, xs, l, rate, count - 1))
  }

  /**
    Every weight of layer `l` has moved from its value in `before` by what it
    multiplies (taken from `xs`), times its neuron's delta, times the rate.
  */
  predicate WeightRule(net: Net, before: seq<real>, xs: seq<real>, l: nat, rate: real)
    requires Sized(net) && l <= Last(net) && |before| == |net.weight| && |xs| == net.sizes[l]
  {
    RowsUpTo(net, before, xs, l, rate, net.sizes[l + 1])
  }

  lemma {:induction false} RowsUpToMeans(net: Net, before: seq<real>, xs: seq<real>, l: nat, rate: real, count: nat)
    requires Sized(net) && l <= Last(net) && |before| == |net.weight| && |xs| == net.sizes[l] && count <= net.sizes[l + 1]
    ensures RowsUpTo(net, before, xs, l, rate, count) <==> forall n :: 0 <= n < count ==> RowMoved(net, before, xs, l, rate, n)
    decreases count
  {
    if count > 0 {
      RowsUpToMeans(net, before, xs, l, rate, count - 1);
    }
  }

  /** The weight rule of a layer holds exactly when every weight of the layer has moved by it. */
  lemma WeightRuleMeans(net: Net, before: seq<real>, xs: seq<real>, l: nat, rate: real)
    requires Sized(net) && l <= Last(net) && |before| == |net.weight| && |xs| == net.sizes[l]
    ensures WeightRule(net, before, xs, l, rate) <==> forall n :: 0 <= n < net.sizes[l + 1] ==> RowMoved(net, before, xs, l, rate, n)
  {
    RowsUpToMeans(net, before, xs, l, rate, net.sizes[l + 1]);
  }

  /** Two objects of one shape whose weights and deltas agree from the regions of layer `m` on. */
  predicate AgreeFrom(a: Net, b: Net, m: nat)
    requires Sized(a) && Sized(b) && a.sizes == b.sizes && m <= Last(a)
  {
    && (forall k :: WeightOffset(a.sizes, m) <= k < |a.weight| ==> a.weight[k] == b.weight[k])
    && (forall k :: NeuronOffset(a.sizes, m) <= k < |a.delta| ==> a.delta[k] == b.delta[k])
  }

  /** Two objects of one shape that hold the same deltas and weights in layer `l`. */
  predicate SlotsAgree(a: Net, b: Net, l: nat)
    requires Sized(a) && Sized(b) && a.sizes == b.sizes && l <= Last(a)
  {
    && (forall n :: 0 <= n < a.sizes[l + 1] ==> DeltaAt(a, l, n) == DeltaAt(b, l, n))
    && (forall n, i :: 0 <= n < a.sizes[l + 1] && 0 <= i <= a.sizes[l] ==>
          WeightAt(a.sizes, a.weight, l, n, i) == WeightAt(b.sizes, b.weight, l, n, i))
  }

  /** Agreement from layer `m` on covers the deltas and weights of every layer from `m` on. */
  lemma AgreeFromSlots(a: Net, b: Net, m: nat, l: nat)
    requires Sized(a) && Sized(b) && a.sizes == b.sizes && m <= l <= Last(a)
    requires AgreeFrom(a, b, m)
    ensures SlotsAgree(a, b, l)
  {
    var sz := a.sizes;
    if m < l {
      NeuronRegionsOrdered(sz, m, l);
      WeightRegionsOrdered(sz, m, l);
    }
    NeuronEndsBelowLast(sz, l);
    WeightEndsBelowLast(sz, l);
    forall n, i | 0 <= n < sz[l + 1] && 0 <= i <= sz[l]
      ensures WeightAt(sz, a.weight, l, n, i) == WeightAt(sz, b.weight, l, n, i)
    {
      WeightIndexInRegion(sz, l, n, i);
    }
  }

  /** The blame of a neuron only reads its own output and the deltas and weights of the layer after it. */
  lemma BlameAgrees(a: Net, b: Net, answer: seq<real>, l: nat, n: nat)
    requires Sized(a) && Sized(b) && a.sizes == b.sizes && a.output == b.output
    requires l <= Last(a) && n < a.sizes[l + 1] && |answer| >= a.sizes[Last(a) + 1]
    requires l < Last(a) ==> SlotsAgree(a, b, l + 1)
    ensures Blame(a, answer, l, n) == Blame(b, answer, l, n)
  {
    if l < Last(a) {
      BackSumAgrees(a, b, l, n, a.sizes[l + 2]);
    }
  }

  lemma {:induction false} BackSumAgrees(a: Net, b: Net, l: nat, n: nat, k: nat)
    requires Sized(a) && Sized(b) && a.sizes == b.sizes
    requires l < Last(a) && n < a.sizes[l + 1] && k <= a.sizes[l + 2]
    requires SlotsAgree(a, b, l + 1)
    ensures BackSum(a, l, n, k) == BackSum(b, l, n, k)
  {
    if k > 0 {
      BackSumAgrees(a, b, l, n, k - 1);
      BackTermAgrees(a, b, l, n, k - 1);
    }
  }

  lemma BackTermAgrees(a: Net, b: Net, l: nat, n: nat, j: nat)
    requires Sized(a) && Sized(b) && a.sizes == b.sizes
    requires l < Last(a) && n < a.sizes[l + 1] && j < a.sizes[l + 2]
    requires SlotsAgree(a, b, l + 1)
    ensures BackTerm(a, l, n, j) == BackTerm(b, l, n, j)
  {
  }


  // ---------------------------------------------------------------------------
  // train
  // ---------------------------------------------------------------------------

  /** One term of the back-propagated sum: `delta[nidx[l+1] + nn] * weight[widx[l+1] + nn * (layer_size[l+1] + 1) + neuron]`. */
  method ReadBackTerm(net: Net, l: nat, neuron: nat, nn: nat) returns (t: real)
    requires Valid(net) && l < Last(net) && neuron < net.sizes[l + 1] && nn < net.sizes[l + 2]
    ensures t == BackTerm(net, l, neuron, nn)
  {
    var sz := net.sizes;
    NeuronEndsBelowLast(sz, l + 1);
    WeightEndsBelowLast(sz, l + 1);
    WeightIndexInRegion(sz, l + 1, nn, neuron);
    t := net.delta[net.nidx[l + 1] + nn] * net.weight[net.widx[l + 1] + nn * (sz[l + 1] + 1) + neuron];
  }

  /** The error loop of a hidden neuron: `Σ next_d[nn] * next_w[nn * (n_outputs + 1) + neuron]`. */
  method BackError(net: Net, l: nat, neuron: nat) returns (e: real)
    requires Valid(net) && l < Last(net) && neuron < net.sizes[l + 1]
    ensures e == BackSum(net, l, neuron, net.sizes[l + 2])
  {
    e := 0.0;
    var nn := 0;
    while nn < net.sizes[l + 2]
      invariant 0 <= nn <= net.sizes[l + 2]
      invariant e == BackSum(net, l, neuron, nn)
    {
      var t := ReadBackTerm(net, l, neuron, nn);
      e := e + t;
      nn := nn + 1;
    }
  }

  /** The update loop of one row at `base`: `nw[i] += in[i] * d * rate`, then the bias `nw[i] += 1 * d * rate`. */
  method UpdateRow(w: seq<real>, base: nat, xs: seq<real>, d: real, rate: real) returns (r: seq<real>)
    requires base + |xs| < |w|
    ensures |r| == |w|
    ensures forall i :: 0 <= i <= |xs| ==> r[base + i] == w[base + i] + Nudge(InputOrOne(xs, i), d, rate)
    ensures forall k :: 0 <= k < |w| && (k < base || base + |xs| < k) ==> r[k] == w[k]
  {
    r := w;
    var i := 0;
    while i < |xs|
      invariant 0 <= i <= |xs| && |r| == |w|
      invariant forall j :: 0 <= j < i ==> r[base + j] == w[base + j] + Nudge(InputOrOne(xs, j), d, rate)
      invariant forall k :: 0 <= k < |w| && (k < base || base + i <= k) ==> r[k] == w[k]
    {
      r := r[base + i := r[base + i] + xs[i] * d * rate];
      i := i + 1;
    }
    r := r[base + i := r[base + i] + 1.0 * d * rate];
  }

  /**
    One tuning block of `train` for layer `l`, reading `xs` as its inputs:
    each neuron's delta follows the delta rule, each weight of the layer
    moves by the weight rule, and nothing outside the layer's own regions
    changes.
  */
  method TuneLayer(net: Net, l: nat, xs: seq<real>, answer: seq<real>, rate: real, dact: real -> real)
    returns (r: Net)
    requires Valid(net) && l <= Last(net) && |xs| == net.sizes[l] && |answer| >= net.sizes[Last(net) + 1]
    ensures Valid(r) && r == net.(weight := r.weight, delta := r.delta)
    ensures DeltaRule(r, answer, l, dact)
    ensures WeightRule(r, net.weight, xs, l, rate)
    ensures forall k :: 0 <= k < |r.weight| && (k < WeightOffset(net.sizes, l) || WeightEnd(net.sizes, l) <= k) ==>
              r.weight[k] == net.weight[k]
    ensures forall k :: 0 <= k < |r.delta| && (k < NeuronOffset(net.sizes, l) || NeuronEnd(net.sizes, l) <= k) ==>
              r.delta[k] == net.delta[k]
  {
    r := net;
    var neuron := 0;
    while neuron < net.sizes[l + 1]
      invariant 0 <= neuron <= net.sizes[l + 1]
      invariant Valid(r) && r == net.(weight := r.weight, delta := r.delta)
      invariant DeltasDone(net, r, answer, l, dact, neuron)
      invariant RowsDone(net, r, xs, l, rate, neuron)
      invariant WeightsFrom(net, r, l, neuron)
      invariant DeltasFrom(net, r, l, neuron)
    {
      r := TuneNext(net, r, l, xs, answer, neuron, rate, dact);
      neuron := neuron + 1;
    }
    TuneFinish(net, r, answer, xs, l, rate, dact);
  }

  /** One round of the neuron loop of `train`: neuron `neuron` gets its delta and its row moves. */
  method TuneNext(net: Net, r: Net, l: nat, xs: seq<real>, answer: seq<real>, neuron: nat, rate: real, dact: real -> real)
    returns (next: Net)
    requires Valid(net) && l <= Last(net) && |xs| == net.sizes[l] && |answer| >= net.sizes[Last(net) + 1]
    requires neuron < net.sizes[l + 1]
    requires Valid(r) && r == net.(weight := r.weight, delta := r.delta)
    requires DeltasDone(net, r, answer, l, dact, neuron) && RowsDone(net, r, xs, l, rate, neuron)
    requires WeightsFrom(net, r, l, neuron) && DeltasFrom(net, r, l, neuron)
    ensures Valid(next) && next == net.(weight := next.weight, delta := next.delta)
    ensures DeltasDone(net, next, answer, l, dact, neuron + 1) && RowsDone(net, next, xs, l, rate, neuron + 1)
    ensures WeightsFrom(net, next, l, neuron + 1) && DeltasFrom(net, next, l, neuron + 1)
  {
    var blame := NeuronBlame(net, r, l, answer, neuron);
    var d;
    next, d := TuneNeuronOf(net, r, l, xs, blame, neuron, rate, dact);
    DeltaIsDue(net, answer, l, dact, neuron, blame, d);
    TuneNeuron(net, r, next, answer, xs, l, neuron, d, rate, dact);
  }

  lemma DeltaIsDue(net: Net, answer: seq<real>, l: nat, dact: real -> real, n: nat, blame: real, d: real)
    requires Sized(net) && l <= Last(net) && n < net.sizes[l + 1] && |answer| >= net.sizes[Last(net) + 1]
    requires blame == Blame(net, answer, l, n) && d == blame * dact(OutputAt(net, l, n))
    ensures d == DeltaDue(net, answer, l, dact, n)
  {
  }

  /** Once every neuron of layer `l` is done, the loop's invariants give the tuning block's contract. */
  lemma TuneFinish(net: Net, r: Net, answer: seq<real>, xs: seq<real>, l: nat, rate: real, dact: real -> real)
    requires Valid(net) && l <= Last(net) && |xs| == net.sizes[l] && |answer| >= net.sizes[Last(net) + 1]
    requires Valid(r) && r == net.(weight := r.weight, delta := r.delta)
    requires DeltasDone(net, r, answer, l, dact, net.sizes[l + 1]) && RowsDone(net, r, xs, l, rate, net.sizes[l + 1])
    requires WeightsFrom(net, r, l, net.sizes[l + 1]) && DeltasFrom(net, r, l, net.sizes[l + 1])
    ensures DeltaRule(r, answer, l, dact)
    ensures WeightRule(r, net.weight, xs, l, rate)
    ensures forall k :: 0 <= k < |r.weight| && (k < WeightOffset(net.sizes, l) || WeightEnd(net.sizes, l) <= k) ==>
              r.weight[k] == net.weight[k]
    ensures forall k :: 0 <= k < |r.delta| && (k < NeuronOffset(net.sizes, l) || NeuronEnd(net.sizes, l) <= k) ==>
              r.delta[k] == net.delta[k]
  {
    var sz := net.sizes;
    if l < Last(net) {
      TuneAgrees(net, r, l, sz[l + 1]);
      AgreeFromSlots(net, r, l + 1, l + 1);
    }
    FinishDeltas(net, r, answer, l, dact);
    FinishRows(net, r, xs, l, rate);
    FinishFrames(net, r, l);
  }

  /** Once every row is done, the layer's weights follow the weight rule. */
  lemma FinishRows(net: Net, r: Net, xs: seq<real>, l: nat, rate: real)
    requires Sized(net) && Sized(r) && r.sizes == net.sizes && l <= Last(net) && |xs| == net.sizes[l]
    requires RowsDone(net, r, xs, l, rate, net.sizes[l + 1])
    ensures WeightRule(r, net.weight, xs, l, rate)
  {
    forall n | 0 <= n < net.sizes[l + 1]
      ensures RowMoved(r, net.weight, xs, l, rate, n)
    {
    }
    WeightRuleMeans(r, net.weight, xs, l, rate);
  }

  /** Finished deltas follow the delta rule in the tuned object too, whose next layer has not moved. */
  lemma FinishDeltas(net: Net, r: Net, answer: seq<real>, l: nat, dact: real -> real)
    requires Sized(net) && Sized(r) && r.sizes == net.sizes && r.output == net.output
    requires l <= Last(net) && |answer| >= net.sizes[Last(net) + 1]
    requires l < Last(net) ==> SlotsAgree(net, r, l + 1)
    requires DeltasDone(net, r, answer, l, dact, net.sizes[l + 1])
    ensures DeltaRule(r, answer, l, dact)
  {
    forall n | 0 <= n < net.sizes[l + 1]
      ensures DeltaFollows(r, answer, l, dact, n)
    {
      BlameAgrees(net, r, answer, l, n);
    }
    DeltaRuleMeans(r, answer, l, dact);
  }

  /** Once every row is done, nothing outside the layer's regions has moved. */
  lemma FinishFrames(net: Net, r: Net, l: nat)
    requires Sized(net) && Sized(r) && r.sizes == net.sizes && l <= Last(net)
    requires WeightsFrom(net, r, l, net.sizes[l + 1]) && DeltasFrom(net, r, l, net.sizes[l + 1])
    ensures forall k :: 0 <= k < |r.weight| && (k < WeightOffset(net.sizes, l) || WeightEnd(net.sizes, l) <= k) ==>
              r.weight[k] == net.weight[k]
    ensures forall k :: 0 <= k < |r.delta| && (k < NeuronOffset(net.sizes, l) || NeuronEnd(net.sizes, l) <= k) ==>
              r.delta[k] == net.delta[k]
  {
    RowsFillRegion(net.sizes, l);
  }

  /**
    One pass of the neuron loop of a tuning block: computes the neuron's
    blame and its delta `d`, stores `d` in the neuron's delta slot and moves
    each weight of the neuron's row by what it multiplies times `d` times
    the rate. No other slot changes.
  */
  method TuneNeuronOf(net: Net, r: Net, l: nat, xs: seq<real>, blame: real, neuron: nat, rate: real, dact: real -> real)
    returns (next: Net, d: real)
    requires Valid(net) && l <= Last(net) && |xs| == net.sizes[l] && neuron < net.sizes[l + 1]
    requires Valid(r) && r == net.(weight := r.weight, delta := r.delta)
    ensures next == r.(delta := next.delta, weight := next.weight)
    ensures d == blame * dact(OutputAt(net, l, neuron))
    ensures NeuronIndex(net.sizes, l, neuron) < |r.delta| && next.delta == r.delta[NeuronIndex(net.sizes, l, neuron) := d]
    ensures |next.weight| == |r.weight| && RowStart(net.sizes, l, neuron) + |xs| < |r.weight|
    ensures forall i :: 0 <= i <= |xs| ==>
              next.weight[RowStart(net.sizes, l, neuron) + i] == r.weight[RowStart(net.sizes, l, neuron) + i] + Nudge(InputOrOne(xs, i), d, rate)
    ensures forall k :: 0 <= k < |r.weight| && (k < RowStart(net.sizes, l, neuron) || RowStart(net.sizes, l, neuron) + |xs| < k) ==>
              next.weight[k] == r.weight[k]
  {
    var sz := net.sizes;
    var o := net.nidx[l];
    NeuronEndsBelowLast(sz, l);
    var out := r.output[o + neuron];
    assert out == OutputAt(net, l, neuron);
    d := blame * dact(out);
    var base := net.widx[l] + neuron * (sz[l] + 1);
    assert base == RowStart(sz, l, neuron);
    WeightIndexInRegion(sz, l, neuron, sz[l]);
    WeightEndsBelowLast(sz, l);
    var updated := UpdateRow(r.weight, base, xs, d, rate);
    next := r.(delta := r.delta[o + neuron := d], weight := updated);
  }

  /**
    A neuron's blame in the middle of a tuning block: the answer minus the
    output for the output layer, the back-propagated error for a hidden
    one. Only rows and deltas of layer `l` have moved so far, so the blame
    is the one the untouched object gives.
  */
  method NeuronBlame(net: Net, r: Net, l: nat, answer: seq<real>, neuron: nat) returns (blame: real)
    requires Valid(net) && l <= Last(net) && |answer| >= net.sizes[Last(net) + 1] && neuron < net.sizes[l + 1]
    requires Valid(r) && r == net.(weight := r.weight, delta := r.delta)
    requires WeightsFrom(net, r, l, neuron) && DeltasFrom(net, r, l, neuron)
    ensures blame == Blame(net, answer, l, neuron)
  {
    NeuronEndsBelowLast(net.sizes, l);
    if l == Last(net) {
      blame := answer[neuron] - r.output[net.nidx[l] + neuron];
    } else {
      blame := BackError(r, l, neuron);
      TuneAgrees(net, r, l, neuron);
      AgreeFromSlots(r, net, l + 1, l + 1);
      BlameAgrees(r, net, answer, l, neuron);
    }
  }

  /** The first `count` neurons of layer `l` of `r` hold their deltas by the delta rule, with blames taken in `net`. */
  predicate DeltasDone(net: Net, r: Net, answer: seq<real>, l: nat, dact: real -> real, count: nat)
    requires Sized(net) && Sized(r) && r.sizes == net.sizes && l <= Last(net) && count <= net.sizes[l + 1]
    requires |answer| >= net.sizes[Last(net) + 1]
  {
    forall n :: 0 <= n < count ==> DeltaAt(r, l, n) == DeltaDue(net, answer, l, dact, n)
  }

  /** The first `count` rows of layer `l` of `r` have moved from those of `net` by the weight rule. */
  predicate RowsDone(net: Net, r: Net, xs: seq<real>, l: nat, rate: real, count: nat)
    requires Sized(net) && Sized(r) && r.sizes == net.sizes && l <= Last(net) && count <= net.sizes[l + 1]
    requires |xs| == net.sizes[l]
  {
    forall n, i :: 0 <= n < count && 0 <= i <= net.sizes[l] ==>
      WeightAt(r.sizes, r.weight, l, n, i) == WeightAt(net.sizes, net.weight, l, n, i) + Nudge(InputOrOne(xs, i), DeltaAt(r, l, n), rate)
  }

  /** Every weight outside the first `count` rows of layer `l` is still that of `net`. */
  predicate WeightsFrom(net: Net, r: Net, l: nat, count: nat)
    requires Sized(net) && Sized(r) && r.sizes == net.sizes && l <= Last(net)
  {
    forall k :: 0 <= k < |r.weight| && (k < WeightOffset(net.sizes, l) || RowStart(net.sizes, l, count) <= k) ==>
      r.weight[k] == net.weight[k]
  }

  /** Every delta outside the first `count` slots of layer `l` is still that of `net`. */
  predicate DeltasFrom(net: Net, r: Net, l: nat, count: nat)
    requires Sized(net) && Sized(r) && r.sizes == net.sizes && l <= Last(net)
  {
    forall k :: 0 <= k < |r.delta| && (k < NeuronOffset(net.sizes, l) || NeuronOffset(net.sizes, l) + count <= k) ==>
      r.delta[k] == net.delta[k]
  }

  /** One iteration of the neuron loop of a tuning block keeps the loop's four invariants. */
  lemma TuneNeuron(net: Net, r: Net, next: Net, answer: seq<real>, xs: seq<real>, l: nat, neuron: nat,
                   d: real, rate: real, dact: real -> real)
    requires Sized(net) && Sized(r) && r.sizes == net.sizes && l <= Last(net) && neuron < net.sizes[l + 1]
    requires |xs| == net.sizes[l] && |answer| >= net.sizes[Last(net) + 1]
    requires next == r.(delta := next.delta, weight := next.weight)
    requires DeltasDone(net, r, answer, l, dact, neuron) && RowsDone(net, r, xs, l, rate, neuron)
    requires WeightsFrom(net, r, l, neuron) && DeltasFrom(net, r, l, neuron)
    requires d == DeltaDue(net, answer, l, dact, neuron)
    requires NeuronIndex(net.sizes, l, neuron) < |r.delta| && next.delta == r.delta[NeuronIndex(net.sizes, l, neuron) := d]
    requires |next.weight| == |r.weight| && RowStart(net.sizes, l, neuron) + |xs| < |r.weight|
    requires forall i :: 0 <= i <= |xs| ==>
               next.weight[RowStart(net.sizes, l, neuron) + i] == r.weight[RowStart(net.sizes, l, neuron) + i] + Nudge(InputOrOne(xs, i), d, rate)
    requires forall k :: 0 <= k < |r.weight| && (k < RowStart(net.sizes, l, neuron) || RowStart(net.sizes, l, neuron) + |xs| < k) ==>
               next.weight[k] == r.weight[k]
    ensures Sized(next)
    ensures DeltasDone(net, next, answer, l, dact, neuron + 1) && RowsDone(net, next, xs, l, rate, neuron + 1)
    ensures WeightsFrom(net, next, l, neuron + 1) && DeltasFrom(net, next, l, neuron + 1)
  {
    NeuronEndsBelowLast(net.sizes, l);
    DeltaStep(net, r, next, answer, l, neuron, d, dact);
    NewRow(net, r, next, xs, l, neuron, d, rate);
    EarlierRowsKept(net.sizes, l, neuron, r.weight, next.weight);
    RowsStep(net, r, next, xs, l, neuron, d, rate);
    WeightsFromStep(net, r, next, l, neuron);
  }

  /** Writing neuron `neuron`'s delta extends the finished deltas by one and touches no other slot. */
  lemma DeltaStep(net: Net, r: Net, next: Net, answer: seq<real>, l: nat, neuron: nat, d: real, dact: real -> real)
    requires Sized(net) && Sized(r) && r.sizes == net.sizes && l <= Last(net) && neuron < net.sizes[l + 1]
    requires |answer| >= net.sizes[Last(net) + 1]
    requires next == r.(delta := next.delta, weight := next.weight) && |next.weight| == |r.weight|
    requires DeltasDone(net, r, answer, l, dact, neuron) && DeltasFrom(net, r, l, neuron)
    requires d == DeltaDue(net, answer, l, dact, neuron)
    requires NeuronIndex(net.sizes, l, neuron) < |r.delta| && next.delta == r.delta[NeuronIndex(net.sizes, l, neuron) := d]
    ensures Sized(next)
    ensures DeltasDone(net, next, answer, l, dact, neuron + 1) && DeltasFrom(net, next, l, neuron + 1)
    ensures DeltaAt(next, l, neuron) == d
    ensures forall n :: 0 <= n < neuron ==> DeltaAt(next, l, n) == DeltaAt(r, l, n)
  {
    NeuronEndsBelowLast(net.sizes, l);
  }

  /** The row just written holds the row of `net` moved by the weight rule. */
  lemma NewRow(net: Net, r: Net, next: Net, xs: seq<real>, l: nat, neuron: nat, d: real, rate: real)
    requires Sized(net) && Sized(r) && r.sizes == net.sizes && l <= Last(net) && neuron < net.sizes[l + 1]
    requires |xs| == net.sizes[l] && |next.weight| == |r.weight| && RowStart(net.sizes, l, neuron) + |xs| < |r.weight|
    requires WeightsFrom(net, r, l, neuron)
    requires forall i :: 0 <= i <= |xs| ==>
               next.weight[RowStart(net.sizes, l, neuron) + i] == r.weight[RowStart(net.sizes, l, neuron) + i] + Nudge(InputOrOne(xs, i), d, rate)
    ensures forall i :: 0 <= i <= |xs| ==>
              WeightAt(net.sizes, next.weight, l, neuron, i) == WeightAt(net.sizes, net.weight, l, neuron, i) + Nudge(InputOrOne(xs, i), d, rate)
  {
    WeightEndsBelowLast(net.sizes, l);
    forall i | 0 <= i <= |xs|
      ensures WeightAt(net.sizes, next.weight, l, neuron, i) == WeightAt(net.sizes, net.weight, l, neuron, i) + Nudge(InputOrOne(xs, i), d, rate)
    {
      WeightIndexInRegion(net.sizes, l, neuron, i);
    }
  }

  /** After the new row is written, one more row of the layer is done. */
  lemma RowsStep(net: Net, r: Net, next: Net, xs: seq<real>, l: nat, neuron: nat, d: real, rate: real)
    requires Sized(net) && Sized(r) && Sized(next) && r.sizes == net.sizes && next.sizes == net.sizes
    requires l <= Last(net) && neuron < net.sizes[l + 1] && |xs| == net.sizes[l]
    requires RowsDone(net, r, xs, l, rate, neuron)
    requires DeltaAt(next, l, neuron) == d
    requires forall n :: 0 <= n < neuron ==> DeltaAt(next, l, n) == DeltaAt(r, l, n)
    requires forall n, i :: 0 <= n < neuron && 0 <= i <= net.sizes[l] ==>
               WeightAt(net.sizes, next.weight, l, n, i) == WeightAt(net.sizes, r.weight, l, n, i)
    requires forall i :: 0 <= i <= |xs| ==>
               WeightAt(net.sizes, next.weight, l, neuron, i) == WeightAt(net.sizes, net.weight, l, neuron, i) + Nudge(InputOrOne(xs, i), d, rate)
    ensures RowsDone(net, next, xs, l, rate, neuron + 1)
  {
    EarlierRowsDone(net, r, next, xs, l, neuron, rate);
  }

  /** Rows already done stay done when neither their weights nor their neurons' deltas change. */
  lemma EarlierRowsDone(net: Net, r: Net, next: Net, xs: seq<real>, l: nat, neuron: nat, rate: real)
    requires Sized(net) && Sized(r) && Sized(next) && r.sizes == net.sizes && next.sizes == net.sizes
    requires l <= Last(net) && neuron < net.sizes[l + 1] && |xs| == net.sizes[l]
    requires RowsDone(net, r, xs, l, rate, neuron)
    requires forall n :: 0 <= n < neuron ==> DeltaAt(next, l, n) == DeltaAt(r, l, n)
    requires forall n, i :: 0 <= n < neuron && 0 <= i <= net.sizes[l] ==>
               WeightAt(net.sizes, next.weight, l, n, i) == WeightAt(net.sizes, r.weight, l, n, i)
    ensures RowsDone(net, next, xs, l, rate, neuron)
  {
  }

  /** After the new row is written, every weight past it is still that of `net`. */
  lemma WeightsFromStep(net: Net, r: Net, next: Net, l: nat, neuron: nat)
    requires Sized(net) && Sized(r) && Sized(next) && r.sizes == net.sizes && next.sizes == net.sizes
    requires l <= Last(net) && neuron < net.sizes[l + 1] && |next.weight| == |r.weight|
    requires WeightsFrom(net, r, l, neuron)
    requires forall k :: 0 <= k < |r.weight| && (k < RowStart(net.sizes, l, neuron) || RowStart(net.sizes, l, neuron) + net.sizes[l] < k) ==>
               next.weight[k] == r.weight[k]
    ensures WeightsFrom(net, next, l, neuron + 1)
  {
    RowsFollow(net.sizes, l, neuron);
    RowStartInRegion(net.sizes, l, neuron);
  }

  /**
    During the tuning of layer `l`, before row `neuron` is written, the
    weights and deltas from the regions of layer `l + 1` on are untouched.
  */
  lemma TuneAgrees(net: Net, r: Net, l: nat, neuron: nat)
    requires Sized(net) && Sized(r) && r.sizes == net.sizes && l < Last(net) && neuron <= net.sizes[l + 1]
    requires WeightsFrom(net, r, l, neuron) && DeltasFrom(net, r, l, neuron)
    ensures AgreeFrom(r, net, l + 1) && AgreeFrom(net, r, l + 1)
  {
    if neuron < net.sizes[l + 1] {
      WeightIndexInRegion(net.sizes, l, neuron, 0);
    } else {
      RowsFillRegion(net.sizes, l);
    }
    NeuronRegionsAdjacent(net.sizes, l);
    WeightRegionsAdjacent(net.sizes, l);
  }

  /** Writing row `neuron` of layer `l` leaves the rows before it as they were. */
  lemma EarlierRowsKept(sz: seq<nat>, l: nat, neuron: nat, w: seq<real>, updated: seq<real>)
    requires ValidSizes(sz) && l < |sz| - 1 && neuron < sz[l + 1]
    requires |w| == WeightEnd(sz, |sz| - 2) && |updated| == |w|
    requires forall k :: 0 <= k < |w| && k < RowStart(sz, l, neuron) ==> updated[k] == w[k]
    ensures forall n, i :: 0 <= n < neuron && 0 <= i <= sz[l] ==> WeightAt(sz, updated, l, n, i) == WeightAt(sz, w, l, n, i)
  {
    WeightEndsBelowLast(sz, l);
    forall n, i | 0 <= n < neuron && 0 <= i <= sz[l]
      ensures WeightAt(sz, updated, l, n, i) == WeightAt(sz, w, l, n, i)
    {
      EarlierRowBefore(sz, l, n, neuron, i);
      WeightIndexInRegion(sz, l, n, i);
    }
  }

  /**
    `train`: `predict`, then the output layer's tuning block, then the
    hidden layers' from the last to the first. Each hidden layer reads the
    deltas and the already-updated weights of the layer after it.
    Afterwards the outputs are the forward signals under the old weights,
    every layer's deltas follow the delta rule and every layer's weights
    have moved from the old weights by the weight rule.
  */
  method Train(net: Net, input: seq<real>, answer: seq<real>, rate: real, act: real -> real, dact: real -> real)
    returns (r: Net)
    requires Valid(net) && |input| >= net.sizes[0] && |answer| >= net.sizes[Last(net) + 1]
    ensures Valid(r) && r.sizes == net.sizes && r.nidx == net.nidx && r.widx == net.widx
    ensures forall l :: 0 <= l <= Last(net) ==> LayerOutputs(r, l) == Signal(net, input, act, l)
    ensures forall l :: 0 <= l <= Last(net) ==> DeltaRule(r, answer, l, dact)
    ensures forall l :: 0 <= l <= Last(net) ==> WeightRule(r, net.weight, LayerInput(net, input, act, l), l, rate)
  {
    var p, _ := Predict(net, input, act);
    r := TuneAll(p, input, answer, rate, dact);
    TrainedRules(net, p, r, input, answer, rate, act, dact);
  }

  /** The rules `TuneAll` leaves, restated for the forward signals of the untrained object. */
  lemma TrainedRules(net: Net, p: Net, r: Net, input: seq<real>, answer: seq<real>, rate: real, act: real -> real, dact: real -> real)
    requires Valid(net) && |input| >= net.sizes[0] && |answer| >= net.sizes[Last(net) + 1]
    requires Valid(p) && p == net.(output := p.output)
    requires forall l :: 0 <= l <= Last(net) ==> LayerOutputs(p, l) == Signal(net, input, act, l)
    requires Sized(r) && r == p.(weight := r.weight, delta := r.delta)
    requires TunedAbove(r, p.weight, p, input, answer, -1, dact, rate)
    ensures forall l :: 0 <= l <= Last(net) ==> LayerOutputs(r, l) == Signal(net, input, act, l)
    ensures forall l :: 0 <= l <= Last(net) ==> DeltaRule(r, answer, l, dact)
    ensures forall l :: 0 <= l <= Last(net) ==> WeightRule(r, net.weight, LayerInput(net, input, act, l), l, rate)
  {
    forall l | 0 <= l <= Last(net)
      ensures LayerOutputs(r, l) == Signal(net, input, act, l)
      ensures WeightRule(r, net.weight, LayerInput(net, input, act, l), l, rate)
    {
      assert LayerOutputs(r, l) == LayerOutputs(p, l);
      assert StoredInput(p, input, l) == LayerInput(net, input, act, l);
    }
  }

  /** What layer `l` reads in `train`: `input` for the first layer, the stored outputs of the layer before it otherwise. */
  function StoredInput(net: Net, input: seq<real>, l: nat): (r: seq<real>)
    requires Sized(net) && l <= Last(net) && |input| >= net.sizes[0]
    ensures |r| == net.sizes[l]
  {
    if l == 0 then input[..net.sizes[0]] else LayerOutputs(net, l - 1)
  }

  /**
    The tuning blocks of `train`, run on the object `predict` left behind:
    the output layer first, then the hidden layers from the last to the
    first, each reading its inputs from `input` or from the outputs of the
    layer before it.
  */
  method TuneAll(p: Net, input: seq<real>, answer: seq<real>, rate: real, dact: real -> real)
    returns (r: Net)
    requires Valid(p) && |input| >= p.sizes[0] && |answer| >= p.sizes[Last(p) + 1]
    ensures Valid(r) && r == p.(weight := r.weight, delta := r.delta)
    ensures TunedAbove(r, p.weight, p, input, answer, -1, dact, rate)
  {
    r := TuneOutputLayer(p, input, answer, rate, dact);
    var layer: int := Last(p) - 1;
    while layer >= 0
      invariant -1 <= layer < Last(p)
      invariant Valid(r) && r == p.(weight := r.weight, delta := r.delta)
      invariant TunedAbove(r, p.weight, p, input, answer, layer, dact, rate)
      invariant forall k :: 0 <= k < |r.weight| && k < WeightOffset(p.sizes, layer + 1) ==> r.weight[k] == p.weight[k]
    {
      r := TuneLower(p, r, input, answer, layer, rate, dact);
      layer := layer - 1;
    }
  }

  /** The first round of the layer loop of `train`: the output layer is tuned against the answer. */
  method TuneOutputLayer(p: Net, input: seq<real>, answer: seq<real>, rate: real, dact: real -> real)
    returns (r: Net)
    requires Valid(p) && |input| >= p.sizes[0] && |answer| >= p.sizes[Last(p) + 1]
    ensures Valid(r) && r == p.(weight := r.weight, delta := r.delta)
    ensures TunedAbove(r, p.weight, p, input, answer, Last(p) - 1, dact, rate)
    ensures forall k :: 0 <= k < |r.weight| && k < WeightOffset(p.sizes, Last(p)) ==> r.weight[k] == p.weight[k]
  {
    var xs := StoredInput(p, input, Last(p));
    r := TuneLayer(p, Last(p), xs, answer, rate, dact);
    TunedAboveExtends(r, p.weight, p, input, answer, Last(p), dact, rate);
  }

  /** One round of the layer loop of `train`: layer `layer` is tuned, reading the outputs `predict` stored. */
  method TuneLower(p: Net, r: Net, input: seq<real>, answer: seq<real>, layer: nat, rate: real, dact: real -> real)
    returns (next: Net)
    requires Valid(p) && |input| >= p.sizes[0] && |answer| >= p.sizes[Last(p) + 1] && layer < Last(p)
    requires Valid(r) && r == p.(weight := r.weight, delta := r.delta)
    requires TunedAbove(r, p.weight, p, input, answer, layer, dact, rate)
    requires forall k :: 0 <= k < |r.weight| && k < WeightOffset(p.sizes, layer + 1) ==> r.weight[k] == p.weight[k]
    ensures Valid(next) && next == p.(weight := next.weight, delta := next.delta)
    ensures TunedAbove(next, p.weight, p, input, answer, layer - 1, dact, rate)
    ensures forall k :: 0 <= k < |next.weight| && k < WeightOffset(p.sizes, layer) ==> next.weight[k] == p.weight[k]
  {
    var xs := StoredInput(r, input, layer);
    StoredInputReadsOutputs(r, p, input, layer);
    next := TuneLayer(r, layer, xs, answer, rate, dact);
    TuneLayerStep(r, next, p.weight, p, input, answer, layer, dact, rate);
  }

  /** `StoredInput` reads nothing but `input` and the outputs. */
  lemma StoredInputReadsOutputs(a: Net, b: Net, input: seq<real>, l: nat)
    requires Sized(a) && Sized(b) && a.sizes == b.sizes && a.output == b.output
    requires l <= Last(a) && |input| >= a.sizes[0]
    ensures StoredInput(a, input, l) == StoredInput(b, input, l)
  {
  }

  /** Every layer after `layer` has its deltas by the delta rule and its weights moved from `w0` by the weight rule. */
  predicate TunedAbove(r: Net, w0: seq<real>, p: Net, input: seq<real>, answer: seq<real>, layer: int, dact: real -> real, rate: real)
    requires Sized(r) && Sized(p) && p.sizes == r.sizes && |w0| == |r.weight| && |input| >= r.sizes[0]
    requires |answer| >= r.sizes[Last(r) + 1]
  {
    forall l :: layer < l <= Last(r) && 0 <= l ==> DeltaRule(r, answer, l, dact) && WeightRule(r, w0, StoredInput(p, input, l), l, rate)
  }

  /** Tuning one more hidden layer extends the tuned layers down by one and leaves the weights before it alone. */
  lemma TuneLayerStep(r: Net, next: Net, w0: seq<real>, p: Net, input: seq<real>,
                      answer: seq<real>, layer: nat, dact: real -> real, rate: real)
    requires Sized(r) && Sized(next) && next == r.(weight := next.weight, delta := next.delta)
    requires Sized(p) && p.sizes == r.sizes && |w0| == |r.weight| && |input| >= r.sizes[0]
    requires layer < Last(r) && |answer| >= r.sizes[Last(r) + 1]
    requires TunedAbove(r, w0, p, input, answer, layer, dact, rate)
    requires forall k :: 0 <= k < |r.weight| && k < WeightOffset(r.sizes, layer + 1) ==> r.weight[k] == w0[k]
    requires DeltaRule(next, answer, layer, dact) && WeightRule(next, r.weight, StoredInput(p, input, layer), layer, rate)
    requires forall k :: 0 <= k < |next.weight| && (k < WeightOffset(r.sizes, layer) || WeightEnd(r.sizes, layer) <= k) ==>
               next.weight[k] == r.weight[k]
    requires forall k :: 0 <= k < |next.delta| && (k < NeuronOffset(r.sizes, layer) || NeuronEnd(r.sizes, layer) <= k) ==>
               next.delta[k] == r.delta[k]
    ensures TunedAbove(next, w0, p, input, answer, layer - 1, dact, rate)
    ensures forall k :: 0 <= k < |next.weight| && k < WeightOffset(r.sizes, layer) ==> next.weight[k] == w0[k]
  {
    TuneKeepsLaterRules(r, next, w0, p, input, answer, layer, dact, rate);
    WeightsBeforeKept(r, next, w0, layer);
    RebaseWeightRule(r, next, w0, StoredInput(p, input, layer), layer, rate);
    TunedAboveExtends(next, w0, p, input, answer, layer, dact, rate);
  }

  /** The weights before layer `layer` are still those of `w0` once layer `layer` is tuned. */
  lemma WeightsBeforeKept(r: Net, next: Net, w0: seq<real>, layer: nat)
    requires Sized(r) && Sized(next) && r.sizes == next.sizes && |w0| == |r.weight| && layer < Last(r)
    requires forall k :: 0 <= k < |r.weight| && k < WeightOffset(r.sizes, layer + 1) ==> r.weight[k] == w0[k]
    requires forall k :: 0 <= k < |next.weight| && (k < WeightOffset(r.sizes, layer) || WeightEnd(r.sizes, layer) <= k) ==>
               next.weight[k] == r.weight[k]
    ensures forall k :: 0 <= k < |r.weight| && k < WeightEnd(r.sizes, layer) ==> r.weight[k] == w0[k]
    ensures forall k :: 0 <= k < |next.weight| && k < WeightOffset(r.sizes, layer) ==> next.weight[k] == w0[k]
  {
    WeightRegionsAdjacent(r.sizes, layer);
    WeightRegionSpan(r.sizes, layer);
  }

  /** The layers tuned so far grow by one once layer `layer` follows both rules. */
  lemma TunedAboveExtends(r: Net, w0: seq<real>, p: Net, input: seq<real>, answer: seq<real>, layer: nat, dact: real -> real, rate: real)
    requires Sized(r) && Sized(p) && p.sizes == r.sizes && |w0| == |r.weight| && |input| >= r.sizes[0]
    requires layer <= Last(r) && |answer| >= r.sizes[Last(r) + 1]
    requires TunedAbove(r, w0, p, input, answer, layer, dact, rate)
    requires DeltaRule(r, answer, layer, dact) && WeightRule(r, w0, StoredInput(p, input, layer), layer, rate)
    ensures TunedAbove(r, w0, p, input, answer, layer - 1, dact, rate)
  {
  }

  /** Tuning layer `layer` keeps the rules already established for the layers after it. */
  lemma TuneKeepsLaterRules(r: Net, next: Net, w0: seq<real>, p: Net, input: seq<real>,
                            answer: seq<real>, layer: nat, dact: real -> real, rate: real)
    requires Sized(r) && Sized(next) && next == r.(weight := next.weight, delta := next.delta)
    requires Sized(p) && p.sizes == r.sizes && |w0| == |r.weight| && |input| >= r.sizes[0]
    requires layer < Last(r) && |answer| >= r.sizes[Last(r) + 1]
    requires forall k :: 0 <= k < |next.weight| && WeightEnd(r.sizes, layer) <= k ==> next.weight[k] == r.weight[k]
    requires forall k :: 0 <= k < |next.delta| && NeuronEnd(r.sizes, layer) <= k ==> next.delta[k] == r.delta[k]
    requires TunedAbove(r, w0, p, input, answer, layer, dact, rate)
    ensures TunedAbove(next, w0, p, input, answer, layer, dact, rate)
  {
    NeuronRegionsAdjacent(r.sizes, layer);
    WeightRegionsAdjacent(r.sizes, layer);
    assert AgreeFrom(next, r, layer + 1);
    forall l | layer < l <= Last(r)
      ensures DeltaRule(next, answer, l, dact) && WeightRule(next, w0, StoredInput(p, input, l), l, rate)
    {
      LaterRulesKept(r, next, w0, StoredInput(p, input, l), answer, layer, l, dact, rate);
    }
  }

  /** The rules of a layer `l` after `layer` survive a tuning block that only touched layer `layer`. */
  lemma LaterRulesKept(r: Net, next: Net, w0: seq<real>, xs: seq<real>,
                       answer: seq<real>, layer: nat, l: nat, dact: real -> real, rate: real)
    requires Sized(r) && Sized(next) && next == r.(weight := next.weight, delta := next.delta)
    requires |w0| == |r.weight| && layer < l <= Last(r) && |xs| == r.sizes[l] && |answer| >= r.sizes[Last(r) + 1]
    requires AgreeFrom(next, r, layer + 1)
    requires DeltaRule(r, answer, l, dact) && WeightRule(r, w0, xs, l, rate)
    ensures DeltaRule(next, answer, l, dact) && WeightRule(next, w0, xs, l, rate)
  {
    AgreeFromSlots(next, r, layer + 1, l);
    if l < Last(r) {
      AgreeFromSlots(next, r, layer + 1, l + 1);
    }
    DeltaRuleKept(r, next, answer, l, dact);
    WeightRuleKept(r, next, w0, xs, l, rate);
  }

  /** The delta rule of layer `l` only reads the layer's own slots and those of the layer after it. */
  lemma DeltaRuleKept(r: Net, next: Net, answer: seq<real>, l: nat, dact: real -> real)
    requires Sized(r) && Sized(next) && next.sizes == r.sizes && next.output == r.output
    requires l <= Last(r) && |answer| >= r.sizes[Last(r) + 1]
    requires SlotsAgree(next, r, l) && (l < Last(r) ==> SlotsAgree(next, r, l + 1))
    requires DeltaRule(r, answer, l, dact)
    ensures DeltaRule(next, answer, l, dact)
  {
    DeltaRuleMeans(r, answer, l, dact);
    forall n | 0 <= n < r.sizes[l + 1]
      ensures DeltaFollows(next, answer, l, dact, n)
    {
      DeltaFollowsKept(r, next, answer, l, dact, n);
    }
    DeltaRuleMeans(next, answer, l, dact);
  }

  lemma DeltaFollowsKept(r: Net, next: Net, answer: seq<real>, l: nat, dact: real -> real, n: nat)
    requires Sized(r) && Sized(next) && next.sizes == r.sizes && next.output == r.output
    requires l <= Last(r) && n < r.sizes[l + 1] && |answer| >= r.sizes[Last(r) + 1]
    requires DeltaAt(next, l, n) == DeltaAt(r, l, n) && (l < Last(r) ==> SlotsAgree(next, r, l + 1))
    requires DeltaFollows(r, answer, l, dact, n)
    ensures DeltaFollows(next, answer, l, dact, n)
  {
    BlameAgrees(next, r, answer, l, n);
    assert OutputAt(next, l, n) == OutputAt(r, l, n);
  }

  /** The weight rule of layer `l` only reads the layer's own slots. */
  lemma WeightRuleKept(r: Net, next: Net, w0: seq<real>, xs: seq<real>, l: nat, rate: real)
    requires Sized(r) && Sized(next) && next.sizes == r.sizes
    requires l <= Last(r) && |w0| == |r.weight| && |xs| == r.sizes[l]
    requires SlotsAgree(next, r, l)
    requires WeightRule(r, w0, xs, l, rate)
    ensures WeightRule(next, w0, xs, l, rate)
  {
    WeightRuleMeans(r, w0, xs, l, rate);
    forall n | 0 <= n < r.sizes[l + 1]
      ensures RowMoved(next, w0, xs, l, rate, n)
    {
      assert RowMoved(r, w0, xs, l, rate, n);
    }
    WeightRuleMeans(next, w0, xs, l, rate);
  }

  /** A weight rule stated against weights that agree, on the layer's region, with other weights holds against those too. */
  lemma RebaseWeightRule(r: Net, next: Net, w0: seq<real>, xs: seq<real>, layer: nat, rate: real)
    requires Sized(r) && Sized(next) && next.sizes == r.sizes && layer <= Last(r)
    requires |w0| == |r.weight| && |xs| == r.sizes[layer]
    requires forall k :: 0 <= k < |r.weight| && k < WeightEnd(r.sizes, layer) ==> r.weight[k] == w0[k]
    requires WeightRule(next, r.weight, xs, layer, rate)
    ensures WeightRule(next, w0, xs, layer, rate)
  {
    var sz := r.sizes;
    WeightRuleMeans(next, r.weight, xs, layer, rate);
    WeightEndsBelowLast(sz, layer);
    forall n | 0 <= n < sz[layer + 1]
      ensures RowMoved(next, w0, xs, layer, rate, n)
    {
      assert RowMoved(next, r.weight, xs, layer, rate, n);
      forall i | 0 <= i <= sz[layer]
        ensures WeightAt(sz, r.weight, layer, n, i) == WeightAt(sz, w0, layer, n, i)
      {
        WeightIndexInRegion(sz, layer, n, i);
      }
    }
    WeightRuleMeans(next, w0, xs, layer, rate);
  }
}
