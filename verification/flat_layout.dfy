/**
  The arena layout of `neural_network` in neural_network.hpp: the width table
  `layer_size = {INPUTS, HIDDENS..., OUTPUTS}`, the compile-time sizes
  `NEURONS` and `WEIGHTS_SPACE`, and the per-layer offsets `nidx` (into the
  output and delta arrays) and `widx` (into the weight array).

  Layer `l` (0 <= l < LAYERS) reads `layer_size[l]` inputs and has
  `layer_size[l + 1]` neurons. Its neurons occupy
  `[nidx[l], nidx[l] + layer_size[l + 1])`, and its weights, one row of
  `layer_size[l] + 1` entries (bias last) per neuron, occupy
  `[widx[l], widx[l] + (layer_size[l] + 1) * layer_size[l + 1])`.
*/
module FlatLayout {

  /** `{INPUTS, HIDDENS..., OUTPUTS}`. */
  function Sizes(inputs: nat, hiddens: seq<nat>, outputs: nat): (sz: seq<nat>)
    ensures |sz| == |hiddens| + 2
  {
    [inputs] + hiddens + [outputs]
  }

  /**
    The width tables the class can be instantiated with: at least one hidden
    width, so that the fold defining NEURONS has an operand and the output
    layer has a predecessor layer.
  */
  predicate ValidSizes(sz: seq<nat>)
  {
    |sz| >= 3
  }

  /** `LAYERS = sizeof...(HIDDENS) + 1`: the number of weight layers. */
  function LayerCount(sz: seq<nat>): nat
    requires |sz| >= 2
  {
    |sz| - 1
  }

  /** `(X + ...)`: a unary right fold of `+`. */
  function SumOf(xs: seq<nat>): nat
  {
    if |xs| == 0 then 0 else xs[0] + SumOf(xs[1..])
  }

  /** `NEURONS = (HIDDENS + ...) + OUTPUTS`. */
  function Neurons(hiddens: seq<nat>, outputs: nat): nat
    requires |hiddens| >= 1
  {
    SumOf(hiddens) + outputs
  }

  /** `weights_space_f<meta_arr<X...>, meta_arr<Y...>>::value = (((X + 1) * Y) + ...)`. */
  function WeightsSpaceOf(xs: seq<nat>, ys: seq<nat>): nat
    requires |xs| == |ys|
  {
    if |xs| == 0 then 0 else (xs[0] + 1) * ys[0] + WeightsSpaceOf(xs[1..], ys[1..])
  }

  /** `WEIGHTS_SPACE`, the fold over the pairs `(INPUTS, H1), (H1, H2), ..., (Hn, OUTPUTS)`. */
  function WeightsSpace(inputs: nat, hiddens: seq<nat>, outputs: nat): nat
  {
    WeightsSpaceOf([inputs] + hiddens, hiddens + [outputs])
  }

  /** `nidx[0] = 0; nidx[l] = layer_size[l] + nidx[l - 1]`. */
  function NeuronOffset(sz: seq<nat>, l: nat): nat
    requires l < |sz| - 1
  {
    if l == 0 then 0 else sz[l] + NeuronOffset(sz, l - 1)
  }

  /** `widx[0] = 0; widx[l] = (layer_size[l - 1] + 1) * layer_size[l] + widx[l - 1]`. */
  function WeightOffset(sz: seq<nat>, l: nat): nat
    requires l < |sz| - 1
  {
    if l == 0 then 0 else (sz[l - 1] + 1) * sz[l] + WeightOffset(sz, l - 1)
  }

  /** One past the last neuron of layer `l`. */
  function NeuronEnd(sz: seq<nat>, l: nat): nat
    requires l < |sz| - 1
  {
    NeuronOffset(sz, l) + sz[l + 1]
  }

  /** One past the last weight of layer `l`. */
  function WeightEnd(sz: seq<nat>, l: nat): nat
    requires l < |sz| - 1
  {
    WeightOffset(sz, l) + (sz[l] + 1) * sz[l + 1]
  }

  /** `nidx[layer] + neuron`: the output and delta slot of a neuron. */
  function NeuronIndex(sz: seq<nat>, l: nat, neuron: nat): nat
    requires l < |sz| - 1
  {
    NeuronOffset(sz, l) + neuron
  }

  /** `widx[layer] + neuron * (n_inputs + 1)`: where the row of a neuron starts. */
  function RowStart(sz: seq<nat>, l: nat, neuron: nat): nat
    requires l < |sz| - 1
  {
    WeightOffset(sz, l) + neuron * (sz[l] + 1)
  }

  /** `widx[layer] + neuron * (n_inputs + 1) + i`: weight `i` of a neuron's row (the bias at `i = n_inputs`). */
  function WeightIndex(sz: seq<nat>, l: nat, neuron: nat, i: nat): nat
    requires l < |sz| - 1
  {
    RowStart(sz, l, neuron) + i
  }

  // ---------------------------------------------------------------------------
  // The offsets are prefix sums, and the last region ends at the array size
  // ---------------------------------------------------------------------------

  lemma {:induction false} SumOfSnoc(xs: seq<nat>, x: nat)
    ensures SumOf(xs + [x]) == SumOf(xs) + x
    decreases |xs|
  {
    if |xs| > 0 {
      assert (xs + [x])[1..] == xs[1..] + [x];
      SumOfSnoc(xs[1..], x);
    }
  }

  lemma {:induction false} WeightsSpaceOfSnoc(xs: seq<nat>, ys: seq<nat>, x: nat, y: nat)
    requires |xs| == |ys|
    ensures WeightsSpaceOf(xs + [x], ys + [y]) == WeightsSpaceOf(xs, ys) + (x + 1) * y
    decreases |xs|
  {
    if |xs| > 0 {
      assert (xs + [x])[1..] == xs[1..] + [x];
      assert (ys + [y])[1..] == ys[1..] + [y];
      WeightsSpaceOfSnoc(xs[1..], ys[1..], x, y);
    }
  }

  /** `nidx[l]` is the number of neurons in the layers before `l`: the sum of `layer_size[1 .. l]`. */
  lemma {:induction false} NeuronOffsetIsPrefixSum(sz: seq<nat>, l: nat)
    requires l < |sz| - 1
    ensures NeuronOffset(sz, l) == SumOf(sz[1..l + 1])
    decreases l
  {
    if l > 0 {
      NeuronOffsetIsPrefixSum(sz, l - 1);
      assert sz[1..l + 1] == sz[1..l] + [sz[l]];
      SumOfSnoc(sz[1..l], sz[l]);
    }
  }

  /** `widx[l]` is the number of weights in the layers before `l`. */
  lemma {:induction false} WeightOffsetIsPrefixSum(sz: seq<nat>, l: nat)
    requires l < |sz| - 1
    ensures WeightOffset(sz, l) == WeightsSpaceOf(sz[..l], sz[1..l + 1])
    decreases l
  {
    if l > 0 {
      WeightOffsetIsPrefixSum(sz, l - 1);
      assert sz[..l] == sz[..l - 1] + [sz[l - 1]];
      assert sz[1..l + 1] == sz[1..l] + [sz[l]];
      WeightsSpaceOfSnoc(sz[..l - 1], sz[1..l], sz[l - 1], sz[l]);
    }
  }

  /** The neurons of the last layer end exactly at NEURONS. */
  lemma LastNeuronEnd(inputs: nat, hiddens: seq<nat>, outputs: nat)
    requires |hiddens| >= 1
    ensures var sz := Sizes(inputs, hiddens, outputs);
            NeuronEnd(sz, LayerCount(sz) - 1) == Neurons(hiddens, outputs)
  {
    var sz := Sizes(inputs, hiddens, outputs);
    var last := LayerCount(sz) - 1;
    NeuronOffsetIsPrefixSum(sz, last);
    assert sz[1..last + 1] == hiddens;
  }

  /** The weights of the last layer end exactly at WEIGHTS_SPACE. */
  lemma LastWeightEnd(inputs: nat, hiddens: seq<nat>, outputs: nat)
    ensures var sz := Sizes(inputs, hiddens, outputs);
            WeightEnd(sz, LayerCount(sz) - 1) == WeightsSpace(inputs, hiddens, outputs)
  {
    var sz := Sizes(inputs, hiddens, outputs);
    var last := LayerCount(sz) - 1;
    WeightOffsetIsPrefixSum(sz, last);
    assert sz[..last] + [sz[last]] == [inputs] + hiddens;
    assert sz[1..last + 1] + [sz[last + 1]] == hiddens + [outputs];
    WeightsSpaceOfSnoc(sz[..last], sz[1..last + 1], sz[last], sz[last + 1]);
  }

  // ---------------------------------------------------------------------------
  // Regions: in bounds and pairwise disjoint
  // ---------------------------------------------------------------------------

  /** Each layer's neurons start where the previous layer's end. */
  lemma NeuronRegionsAdjacent(sz: seq<nat>, l: nat)
    requires l + 1 < |sz| - 1
    ensures NeuronEnd(sz, l) == NeuronOffset(sz, l + 1)
  {
  }

  /** Each layer's weights start where the previous layer's end. */
  lemma WeightRegionsAdjacent(sz: seq<nat>, l: nat)
    requires l + 1 < |sz| - 1
    ensures WeightEnd(sz, l) == WeightOffset(sz, l + 1)
  {
  }

  /** An earlier layer's neuron region ends before a later layer's begins, and every region ends by the last one's end. */
  lemma {:induction false} NeuronRegionsOrdered(sz: seq<nat>, l: nat, m: nat)
    requires l < m < |sz| - 1
    ensures NeuronEnd(sz, l) <= NeuronOffset(sz, m)
    ensures NeuronEnd(sz, m) <= NeuronEnd(sz, |sz| - 2)
    decreases m - l
  {
    if l + 1 < m {
      NeuronRegionsOrdered(sz, l + 1, m);
    }
    NeuronEndsBelowLast(sz, m);
  }

  lemma {:induction false} NeuronEndsBelowLast(sz: seq<nat>, l: nat)
    requires l < |sz| - 1
    ensures NeuronEnd(sz, l) <= NeuronEnd(sz, |sz| - 2)
    decreases |sz| - 2 - l
  {
    if l < |sz| - 2 {
      NeuronEndsBelowLast(sz, l + 1);
    }
  }

  /** An earlier layer's weight region ends before a later layer's begins, and every region ends by the last one's end. */
  lemma {:induction false} WeightRegionsOrdered(sz: seq<nat>, l: nat, m: nat)
    requires l < m < |sz| - 1
    ensures WeightOffset(sz, l) <= WeightEnd(sz, l) <= WeightOffset(sz, m)
    ensures WeightEnd(sz, m) <= WeightEnd(sz, |sz| - 2)
    decreases m - l
  {
    WeightRegionSpan(sz, l);
    if l + 1 < m {
      WeightRegionsOrdered(sz, l + 1, m);
    }
    WeightEndsBelowLast(sz, m);
  }

  /** A layer's weight region does not end before it starts. */
  lemma WeightRegionSpan(sz: seq<nat>, l: nat)
    requires l < |sz| - 1
    ensures WeightOffset(sz, l) <= WeightEnd(sz, l)
  {
    assert (sz[l] + 1) * sz[l + 1] >= 0;
  }

  lemma {:induction false} WeightEndsBelowLast(sz: seq<nat>, l: nat)
    requires l < |sz| - 1
    ensures WeightEnd(sz, l) <= WeightEnd(sz, |sz| - 2)
    decreases |sz| - 2 - l
  {
    if l < |sz| - 2 {
      WeightEndsBelowLast(sz, l + 1);
    }
  }

  /** Row-major addressing: entry `(r, c)` of a `rows x cols` block lies inside the block. */
  lemma RowMajorInside(r: nat, c: nat, rows: nat, cols: nat)
    requires r < rows && c < cols
    ensures r * cols + c < rows * cols
  {
    RowsApart(r, rows, cols);
  }

  /** A whole row of `cols` entries separates row `a` from any later row `b`. */
  lemma {:induction false} RowsApart(a: nat, b: nat, cols: nat)
    requires a < b
    ensures a * cols + cols <= b * cols
    decreases b - a
  {
    if a + 1 < b {
      RowsApart(a, b - 1, cols);
    }
    assert (b - 1) * cols + cols == b * cols;
  }

  /** Row-major addressing is one to one: distinct `(row, column)` pairs have distinct offsets. */
  lemma RowMajorInjective(r: nat, c: nat, r': nat, c': nat, cols: nat)
    requires c < cols && c' < cols
    ensures r * cols + c == r' * cols + c' <==> r == r' && c == c'
  {
    if r < r' {
      RowsApart(r, r', cols);
    } else if r' < r {
      RowsApart(r', r, cols);
    }
  }

  /**
    The weight access of `predict` and `train`, `widx[layer] + neuron *
    (n_inputs + 1) + i` with `neuron < n_outputs` and `i <= n_inputs`, falls
    inside the layer's own weight region.
  */
  lemma WeightIndexInRegion(sz: seq<nat>, l: nat, neuron: nat, i: nat)
    requires l < |sz| - 1 && neuron < sz[l + 1] && i <= sz[l]
    ensures WeightOffset(sz, l) <= WeightIndex(sz, l, neuron, i) < WeightEnd(sz, l)
  {
    RowMajorInside(neuron, i, sz[l + 1], sz[l] + 1);
    assert (sz[l] + 1) * sz[l + 1] == sz[l + 1] * (sz[l] + 1);
  }

  /** Two weight accesses of one layer hit the same slot only for the same neuron and column. */
  lemma WeightIndexInjective(sz: seq<nat>, l: nat, neuron: nat, i: nat, neuron': nat, i': nat)
    requires l < |sz| - 1 && i <= sz[l] && i' <= sz[l]
    ensures WeightIndex(sz, l, neuron, i) == WeightIndex(sz, l, neuron', i') <==> neuron == neuron' && i == i'
  {
    RowMajorInjective(neuron, i, neuron', i', sz[l] + 1);
  }

  /** Every weight access of layer `l` lies in the layer's region, and so inside the weight array. */
  lemma LayerRowsInside(sz: seq<nat>, l: nat)
    requires l < |sz| - 1
    ensures forall n, i :: 0 <= n < sz[l + 1] && 0 <= i <= sz[l] ==>
              WeightOffset(sz, l) <= WeightIndex(sz, l, n, i) < WeightEnd(sz, l)
    ensures WeightEnd(sz, l) <= WeightEnd(sz, |sz| - 2)
  {
    forall n, i | 0 <= n < sz[l + 1] && 0 <= i <= sz[l]
      ensures WeightOffset(sz, l) <= WeightIndex(sz, l, n, i) < WeightEnd(sz, l)
    {
      WeightIndexInRegion(sz, l, n, i);
    }
    WeightEndsBelowLast(sz, l);
  }

  /** The rows of a layer fill its region: the row after the last neuron's would start at the region's end. */
  lemma RowsFillRegion(sz: seq<nat>, l: nat)
    requires l < |sz| - 1
    ensures RowStart(sz, l, sz[l + 1]) == WeightEnd(sz, l)
  {
    assert sz[l + 1] * (sz[l] + 1) == (sz[l] + 1) * sz[l + 1];
  }

  /** Every row start of a layer, and the end of its last row, lie within the layer's weight region. */
  lemma RowStartInRegion(sz: seq<nat>, l: nat, n: nat)
    requires l < |sz| - 1 && n <= sz[l + 1]
    ensures WeightOffset(sz, l) <= RowStart(sz, l, n) <= WeightEnd(sz, l)
  {
    if n < sz[l + 1] {
      WeightIndexInRegion(sz, l, n, 0);
    } else {
      RowsFillRegion(sz, l);
      WeightRegionSpan(sz, l);
    }
  }

  /** The rows of one layer follow each other: row `n + 1` starts just after the bias weight of row `n`. */
  lemma RowsFollow(sz: seq<nat>, l: nat, n: nat)
    requires l < |sz| - 1
    ensures WeightIndex(sz, l, n, sz[l]) + 1 == RowStart(sz, l, n + 1)
  {
    assert (n + 1) * (sz[l] + 1) == n * (sz[l] + 1) + sz[l] + 1;
  }

  /** Every entry of an earlier row of a layer comes before the start of a later row. */
  lemma EarlierRowBefore(sz: seq<nat>, l: nat, n: nat, n': nat, i: nat)
    requires l < |sz| - 1 && n < n' && i <= sz[l]
    ensures WeightIndex(sz, l, n, i) < RowStart(sz, l, n')
  {
    RowsApart(n, n', sz[l] + 1);
  }
}
