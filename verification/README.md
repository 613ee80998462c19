# simple_neural_network in Dafny

A model of the backpropagation engine of `simple_neural_network`. The values
themselves (weights, signals, deltas) are `real`, and the activation functions
are uninterpreted `real -> real` parameters. Everything around those values is
modelled exactly: shapes, index tables, buffer offsets, pass schedules, frame
conditions, the integer generator and the driver's row bookkeeping. The model
has three parts.

- **The template chain engine of `mlp.hpp`.** Modules `FastRand`, `Vectors`,
  `Topology`, `Layers` and `Mlp`.
  - `fast_rand` is a 32-bit linear-congruential generator. Its seed is threaded
    explicitly.
  - `simd` vectors are sequences.
  - The `std::tuple` of layer specialisations is a sequence of a four-variant
    `Layer` datatype: Input, Hidden, Output and Answer.
  - `forward` and `backprog` are folds over an index sequence. `forward` runs
    `make_index_sequence` and `backprog` runs `makeIndexSequenceReverse`.
- **The flat-arena `neural_network` of `neural_network.hpp`.** Modules
  `FlatLayout` and `FlatNetwork`.
  - The offset tables `nidx` and `widx` are prefix sums of the width table.
  - There is one weight array, one output array and one delta array.
  - `predict` and `train` are methods over sequences. Their contracts compare
    the arrays they return against a reference definition: `Signal` for the
    forward pass, and the delta rule and weight rule (`DeltaRule`,
    `WeightRule`) for training.
- **The driver of `example.cpp`.** Modules `Shuffle` and `Driver`.
  - `shuffle` is modelled twice: as a recursive reference definition, and as
    the loop the source runs.
  - `main` is reduced to its row bookkeeping: the initial order, the
    per-epoch shuffles of the training prefix, and the scoring of the test
    rows.

libc `rand()` is an oracle `rand: nat -> nat`, indexed by call number, with
every value in `[0, randMax]`. Each method that calls it takes the position of
its first call and returns the position after its last one.

Initial weights are `fast_rand() / FAST_RAND_MAX` and lie in `[0, 1]`. The
generator can return its maximum, so a weight of exactly 1 occurs
(`FastRand.InitialWeightOneReachable`).

## Model

| member | source | states |
|---|---|---|
| FastRand.FastRand | mlp.hpp:35-42 | one call returns a value in `[0, FAST_RAND_MAX]` and leaves the seed at `214013 * seed + 2531011` modulo 2^32, a pure function of the prior seed |
| FastRand.FastRandIsBitField | mlp.hpp:40-41 | the returned value is the 15-bit field above the low 16 bits of the new seed: the seed splits into one top bit, the value, and a 16-bit remainder |
| FastRand.FirstDraw | mlp.hpp:36-41 | from the initial seed 5 the first call returns 54 and leaves seed 3601076 |
| FastRand.DrawMany | mlp.hpp:38-42 | `n` consecutive calls yield `n` values, each in `[0, FAST_RAND_MAX]` |
| FastRand.DrawManySplit | mlp.hpp:38-42 | `m + n` consecutive calls are `m` calls followed by `n` calls from the seed the first `m` left |
| FastRand.DrawManyAt | mlp.hpp:38-42 | the `k`-th value of a run of calls is one call from the seed left by the first `k` |
| FastRand.InitialWeight | mlp.hpp:114 | `value / FAST_RAND_MAX` lies in `[0, 1]`; it is 1 exactly when the value is the maximum and 0 exactly when the value is 0 |
| FastRand.InitialWeightOneReachable | mlp.hpp:114 | some seed makes the generator return `FAST_RAND_MAX`, so an initial weight of exactly 1 occurs |
| Vectors.DotSnoc | mlp.hpp:130 | the dot product (`simd::sum` of elementwise products) grows by one product per extra pair of entries |
| Topology.HiddenTags | mlp.hpp:264 | wrapping a width list in `HIDDEN<...>` tags keeps its length and tags each width in place |
| Topology.Build | mlp.hpp:239-266 | the `Layers` tuple type: the Input layer, the perceptron layers `HIDDEN<INPUTS>, HIDDEN<H>...` paired with `HIDDEN<H>..., OUTPUT<OUTPUTS>`, then the Answer layer; `|H| + 3` entries, Input first and Answer last (entry by entry in `Topology.BuildShape`) |
| Topology.BuildShape | mlp.hpp:248-271 | the layer tuple has `N_LAYERS = |H| + 3` entries, `OUTPUT_LAYER + 1 = ANSWER_LAYER = N_LAYERS - 1`, and entry `k` is the layer type the shape prescribes for position `k` |
| Topology.ChainFitsTogether | mlp.hpp:264-266 | exactly positions `1 .. N_LAYERS - 2` are trainable; every trainable layer's input width is its predecessor's output width; the Answer layer is as wide as the Output layer |
| Topology.BuildWithoutHidden | mlp.hpp:264-266 | with no hidden widths the chain is Input, then a single Input-to-Output layer, then Answer |
| Topology.IndexSequenceReverse | mlp.hpp:46-51 | `makeIndexSequenceReverse<n>`, the pack `n - 1 - I` over `make_index_sequence<n>`; `n` entries (order and permutation in `Topology.IndexSequenceReverseOrder`) |
| Topology.IndexSequenceReverseStep | mlp.hpp:46-51 | a nonempty reversed sequence starts at `n - 1` and continues with the reversed sequence for `n - 1` |
| Topology.IndexSequenceReverseIsReverse | mlp.hpp:46-51 | the reversed index sequence is `make_index_sequence<n>` read backwards |
| Topology.IndexSequenceReverseOrder | mlp.hpp:46-51 | entry `k` is `n - 1 - k`, the entries strictly decrease, and they are a permutation of `0 .. n - 1` |
| Topology.ReverseSnoc | mlp.hpp:46-51 | reversing a sequence with one more element puts that element first |
| Topology.ReverseMultiset | mlp.hpp:46-51 | reversal is a permutation |
| Layers.Scaled | mlp.hpp:114 | scaled draws are one weight per draw, each in `[0, 1]` |
| Layers.InitWeights | mlp.hpp:108-116 | the constructor's nested loop yields an `OUTPUTS x (INPUTS + 1)` matrix with every weight in `[0, 1]`, and advances the seed by exactly `OUTPUTS * (INPUTS + 1)` calls |
| Layers.DrawRow | mlp.hpp:110-116 | the draws for `rows` rows are the first row's draws followed by those of the remaining rows |
| Layers.ScaledConcat | mlp.hpp:114 | scaling distributes over concatenation |
| Layers.InitWeightsDraws | mlp.hpp:108-116 | read row after row, the initial weights are the scaled draws in draw order (row-major) |
| Layers.NewLayer | mlp.hpp:108-122 | each constructor gives buffers of the specialisation's sizes, pins the bias slot to 1, zeroes every other signal slot, draws weights in `[0, 1]`, and advances the seed by the layer's draw count; a trainable layer's weights, read row after row, are the scaled draws in draw order |
| Layers.LoadInput | mlp.hpp:82-88 | `load` writes exactly `outputs[0 .. N)` from the input prefix and leaves the bias slot as it was, so a pinned bias stays 1 |
| Layers.LoadAnswer | mlp.hpp:226-232 | the answer buffer becomes the first `N` target values |
| Layers.LoadInputOverwrites | mlp.hpp:82-88 | loading twice is the same as loading only the second input |
| Layers.Activations | mlp.hpp:124-133 | the signal `feed` computes, one neuron per weight row (its content in `Layers.ActivationsAt`) |
| Layers.ActivationsAt | mlp.hpp:128-132 | neuron `i` is `act` of the dot product of the predecessor's signal with weight row `i` |
| Layers.Feed | mlp.hpp:124-133 | `feed` keeps the layer's variant, weights, deltas and buffer size |
| Layers.FeedSignal | mlp.hpp:124-133 | after `feed`, slot `i < OUTPUTS` holds `act(prev . weights[i])`, and every later slot (the bias) keeps its value |
| Layers.FeedKeepsShape | mlp.hpp:124-133 | `feed` keeps the layer fitting its type, and a bias slot pinned to 1 stays pinned |
| Layers.FeedOverwrites | mlp.hpp:124-133 | feeding twice is feeding once from the second signal: `feed` reads no signal of its own |
| Layers.FeedIncludesBias | mlp.hpp:130 | the `INPUTS + 1`-term dot product is the weighted inputs plus the bias weight times the predecessor's bias slot |
| Layers.UpdateWeights | mlp.hpp:156-161 | the weight update both `tune`s share, keeping the matrix shape (each weight's move in `Layers.UpdateWeightsAt`) |
| Layers.UpdateWeightsAt | mlp.hpp:158-161 | every weight `[i][k]` moves by `rate * delta[i] * input[k]` |
| Layers.Tune | mlp.hpp:135-162 | `tune` keeps the variant and the signal, keeps the delta count, and keeps the weight matrix shape |
| Layers.BackError | mlp.hpp:145-150 | the back-propagated error of neuron `i`: the sum over the successor's `OUTPUTS` neurons of delta times the weight reading `i` |
| Layers.NewDeltas | mlp.hpp:145-154 | the deltas `tune` writes, one per signal slot (their values in `Layers.TuneDeltas`) |
| Layers.TuneDeltas | mlp.hpp:135-217 | Output deltas are `(answer - out) * out * (1 - out)`; Hidden deltas are `(sum over j of next_deltas[j] * next_weights[j][i]) * out * (1 - out)`; the Hidden bias-slot delta is 0 |
| Layers.TuneWeights | mlp.hpp:156-216 | after `tune`, every weight, bias column included, has moved by `rate * delta * input` |
| Layers.TuneKeepsShape | mlp.hpp:135-162 | `tune` keeps the layer fitting its type, and a pinned bias slot stays 1 |
| Layers.BiasDeltaUnread | mlp.hpp:138-151 | a layer's `tune` sums only over its Hidden successor's `OUTPUTS` neurons: changing the successor's bias-slot delta changes nothing `tune` computes |
| Layers.TuneMovesBiasByDelta | mlp.hpp:156-161 | when the predecessor's bias slot holds 1, each bias weight moves by exactly `rate * delta` |
| Mlp.Neighbours | mlp.hpp:279 | in a well-formed chain each layer can be fed from its predecessor and tuned with both neighbours |
| Mlp.Construct | mlp.hpp:273 | constructing the layers in any listed order initialises exactly those layers and advances the seed by their total draw count |
| Mlp.NewMlp | mlp.hpp:273 | whatever order the tuple constructs its elements in, every layer fits its type, every bias slot holds 1 and every initial weight lies in `[0, 1]` |
| Mlp.FeedStep | mlp.hpp:279 | one fold term feeds layer `i + 1` from layer `i` and changes no other layer |
| Mlp.RunFeeds | mlp.hpp:279 | the comma fold of feed steps over an index sequence, left to right; keeps the number of layers (contents in `Mlp.RunFeedsFeeds` and `Mlp.RunFeedsKeeps`) |
| Mlp.FeedStepKeepsWellformed | mlp.hpp:279 | a feed step keeps the chain well formed |
| Mlp.RunFeedsKeepsWellformed | mlp.hpp:279 | the whole forward fold keeps the chain well formed |
| Mlp.LoadInputLayer | mlp.hpp:278 | loading the input changes layer 0 only, as `load` prescribes, and keeps the chain well formed |
| Mlp.Forward | mlp.hpp:275-281 | the forward pass keeps the chain well formed |
| Mlp.IndexRange | mlp.hpp:279 | the range from `k` has `n - k` entries, all in `[k, n)` |
| Mlp.IndexRangeIsSuffix | mlp.hpp:279 | the range from `k` is the suffix of `make_index_sequence<n>` from `k` |
| Mlp.IndexRangeStep | mlp.hpp:279 | a nonempty range starts at `k` and continues with the range from `k + 1` |
| Mlp.RunFeedsKeeps | mlp.hpp:279 | the feeds from index `k` on leave layers `0 .. k` and the Answer layer untouched |
| Mlp.RunFeedsFeeds | mlp.hpp:279 | in the forward fold, layer `i + 1` is fed from the already-fed layer `i` |
| Mlp.ForwardResult | mlp.hpp:275-281 | `forward` loads layer 0, feeds layers `1 .. N_LAYERS - 2` in increasing order, each from its immediate predecessor's fresh signal, and leaves the Answer layer alone |
| Mlp.ForwardKeepsParameters | mlp.hpp:275-281 | a forward pass changes no weight and no delta |
| Mlp.Predict | mlp.hpp:296-300 | `predict` returns `OUTPUTS` values, value `i` being `act` of the dot product of the layer before the Output layer with the Output layer's row `i` |
| Mlp.PredictIsIdempotent | mlp.hpp:296-300 | predicting twice with one input leaves the network exactly as predicting once, so weights never change |
| Mlp.AgreeUpTo | mlp.hpp:279 | two forward passes from the same loaded input agree on every layer up to `m` |
| Mlp.TuneStep | mlp.hpp:287 | one fold term tunes layer `i + 1` with neighbours `i` and `i + 2` and changes no other layer |
| Mlp.RunTunes | mlp.hpp:287 | the comma fold of tune steps over an index sequence, left to right; keeps the number of layers (contents in `Mlp.RunTunesTunes` and `Mlp.RunTunesKeeps`) |
| Mlp.TuneStepKeepsWellformed | mlp.hpp:287 | a tune step keeps the chain well formed |
| Mlp.RunTunesKeepsWellformed | mlp.hpp:287 | the whole backward fold keeps the chain well formed |
| Mlp.RunTunesKeeps | mlp.hpp:287 | the backward fold over `t - 1 .. 0` writes only layers `1 .. t` |
| Mlp.RunTunesTunes | mlp.hpp:287 | every layer `1 .. t` is tuned against its predecessor's old state and its successor's final state |
| Mlp.RunTunesTunesTop | mlp.hpp:287 | the first step tunes layer `t`, and the later steps leave it and its successor alone |
| Mlp.RunTunesUnfold | mlp.hpp:287 | the backward fold is one tune step at `t - 1` followed by the fold over `t - 2 .. 0` |
| Mlp.LoadAnswerLayer | mlp.hpp:286 | loading the answer changes only the Answer layer, which then holds the target prefix |
| Mlp.Backprog | mlp.hpp:283-288 | `backprog` keeps the chain well formed |
| Mlp.BackpropSchedule | mlp.hpp:46-51 | the backward schedule has `|H| + 1` steps; the first tunes `OUTPUT_LAYER` against `ANSWER_LAYER`, the last tunes layer 1 against the Input layer, and each step goes down by one |
| Mlp.Train | mlp.hpp:291-295 | `train` keeps the chain well formed |
| Mlp.TrainResult | mlp.hpp:291-295 | after `train` the Input layer is as loaded, the Answer layer holds the target, and each trainable layer is its forward-pass state tuned against its successor's final state |
| Mlp.TrainDeltas | mlp.hpp:204-217 | after `train`, Output deltas are `(answer - out) * out * (1 - out)`; each Hidden layer's deltas back-propagate its successor's final deltas and weights, times the slope |
| Mlp.TunedOutput | mlp.hpp:210 | the tuned Output layer obeys the output delta law against the loaded target |
| Mlp.TunedHidden | mlp.hpp:145-154 | a tuned Hidden layer obeys the hidden delta law against the successor it was tuned with |
| FlatLayout.SumOfSnoc | neural_network.hpp:70 | the `+` fold grows by the appended width |
| FlatLayout.WeightsSpaceOfSnoc | neural_network.hpp:55-58 | `weights_space_f` grows by `(x + 1) * y` per appended pair |
| FlatLayout.WeightsSpaceOf | neural_network.hpp:55-58 | `weights_space_f`: the sum of `(X + 1) * Y` over the pairs of the two width lists |
| FlatLayout.NeuronOffset | neural_network.hpp:85-88 | the `nidx` recurrence: `nidx[0] = 0`, `nidx[l] = layer_size[l] + nidx[l - 1]` (closed form in `FlatLayout.NeuronOffsetIsPrefixSum`) |
| FlatLayout.WeightOffset | neural_network.hpp:89-92 | the `widx` recurrence: `widx[0] = 0`, `widx[l] = (layer_size[l - 1] + 1) * layer_size[l] + widx[l - 1]` (closed form in `FlatLayout.WeightOffsetIsPrefixSum`) |
| FlatLayout.NeuronOffsetIsPrefixSum | neural_network.hpp:85-88 | `nidx[l]` is the sum of `layer_size[1 .. l]` |
| FlatLayout.WeightOffsetIsPrefixSum | neural_network.hpp:89-92 | `widx[l]` is `weights_space_f` over the first `l` layer pairs |
| FlatLayout.LastNeuronEnd | neural_network.hpp:70 | `nidx[LAYERS - 1] + layer_size[LAYERS] = NEURONS` |
| FlatLayout.LastWeightEnd | neural_network.hpp:69 | `widx[LAYERS - 1] + (layer_size[LAYERS - 1] + 1) * layer_size[LAYERS] = WEIGHTS_SPACE` |
| FlatLayout.NeuronRegionsAdjacent | neural_network.hpp:85-88 | each layer's neuron region starts where the previous one ends |
| FlatLayout.WeightRegionsAdjacent | neural_network.hpp:89-92 | each layer's weight region starts where the previous one ends |
| FlatLayout.NeuronRegionsOrdered | neural_network.hpp:85-88 | neuron regions of different layers are disjoint and lie within `[0, NEURONS)` |
| FlatLayout.NeuronEndsBelowLast | neural_network.hpp:85-88 | every neuron region ends by `NEURONS` |
| FlatLayout.WeightRegionsOrdered | neural_network.hpp:89-92 | weight regions of different layers are disjoint and lie within `[0, WEIGHTS_SPACE)` |
| FlatLayout.WeightRegionSpan | neural_network.hpp:89-92 | a weight region does not end before it starts |
| FlatLayout.WeightEndsBelowLast | neural_network.hpp:89-92 | every weight region ends by `WEIGHTS_SPACE` |
| FlatLayout.RowMajorInside | neural_network.hpp:107 | entry `(r, c)` of a row-major block lies inside the block |
| FlatLayout.RowsApart | neural_network.hpp:107 | a whole row separates row `a` from any later row |
| FlatLayout.RowMajorInjective | neural_network.hpp:107 | distinct `(row, column)` pairs have distinct row-major offsets |
| FlatLayout.WeightIndexInRegion | neural_network.hpp:101-112 | `widx[l] + neuron * (n_inputs + 1) + i`, for `neuron < n_outputs` and `i <= n_inputs`, lies in `[widx[l], widx[l + 1])` |
| FlatLayout.WeightIndexInjective | neural_network.hpp:101-112 | two weight accesses of one layer hit the same slot exactly when neuron and column agree |
| FlatLayout.LayerRowsInside | neural_network.hpp:131-140 | every weight access of a layer lies in its region and inside the array |
| FlatLayout.RowsFillRegion | neural_network.hpp:91 | the rows of a layer fill its region exactly |
| FlatLayout.RowStartInRegion | neural_network.hpp:107 | every row start of a layer lies in its region |
| FlatLayout.RowsFollow | neural_network.hpp:164-169 | row `n + 1` starts right after row `n`'s bias weight |
| FlatLayout.EarlierRowBefore | neural_network.hpp:164-169 | every entry of an earlier row comes before a later row's start |
| FlatNetwork.NewNetwork | neural_network.hpp:84-96 | the constructor builds offset tables holding the region starts and arrays of sizes `WEIGHTS_SPACE` and `NEURONS`; weight `i` is the `i`-th `rand()` value over `RAND_MAX`; it makes exactly `WEIGHTS_SPACE` calls |
| FlatNetwork.NeuronOffsets | neural_network.hpp:85-88 | the first loop fills `nidx[l]` with the start of layer `l`'s neuron region, for every `l < LAYERS` |
| FlatNetwork.WeightOffsets | neural_network.hpp:89-92 | the second loop fills `widx[l]` with the start of layer `l`'s weight region, for every `l < LAYERS` |
| FlatNetwork.RandomWeights | neural_network.hpp:93-95 | the third loop sets weight `i` to the `i`-th `rand()` value over `RAND_MAX` |
| FlatNetwork.InitialWeightsInUnit | neural_network.hpp:94 | with `rand()` in `[0, RAND_MAX]`, every initial weight lies in `[0, 1]` |
| FlatNetwork.QuotientInUnit | neural_network.hpp:94 | a value in `[0, m]` divided by `m > 0` lies in `[0, 1]` |
| FlatNetwork.NeuronActivation | neural_network.hpp:106-112 | the inner loop computes the weighted inputs plus `1 * bias weight` of the row at the given base |
| FlatNetwork.FeedNeuron | neural_network.hpp:105-113 | each neuron outputs `act` of its activation over its own row |
| FlatNetwork.FeedLayer | neural_network.hpp:98-114 | one round of the layer loop stores each neuron's `act(activation)` in its output slot and changes no other output slot and no other member |
| FlatNetwork.FedOutputs | neural_network.hpp:113 | storing at `nidx[l] + n` is what `output + nidx[l]` shows at `n` |
| FlatNetwork.Signal | neural_network.hpp:97-119 | the reference forward signal of layer `l`: `act` of each neuron's activation over the previous layer's signal (the input for layer 0); `layer_size[l + 1]` values |
| FlatNetwork.Predict | neural_network.hpp:97-119 | `predict` changes only the output array; afterwards every layer's region holds its forward signal; it returns the last layer's signal, `OUTPUTS` values |
| FlatNetwork.PredictLayer | neural_network.hpp:98-117 | one round of the layer loop feeds layer `layer`, keeps the earlier layers' signals, and hands its outputs on as the next layer's input |
| FlatNetwork.InputIsSignal | neural_network.hpp:116 | `input = out`: layer `l + 1` reads layer `l`'s signal |
| FlatNetwork.FedLayers | neural_network.hpp:103-116 | feeding layer `layer` leaves every earlier layer's signal in place |
| FlatNetwork.EarlierLayerKept | neural_network.hpp:103 | writes past `nidx[layer]` do not touch the region of an earlier layer |
| FlatNetwork.DeltasUpToMeans | neural_network.hpp:134 | the delta rule for the first `count` neurons holds exactly when each of them follows it |
| FlatNetwork.DeltaRuleMeans | neural_network.hpp:134-163 | a layer's delta rule holds exactly when every neuron's delta is its blame times `dact` of its output |
| FlatNetwork.RowsUpToMeans | neural_network.hpp:137-140 | the weight rule for the first `count` rows holds exactly when each row moved by it |
| FlatNetwork.WeightRuleMeans | neural_network.hpp:137-169 | a layer's weight rule holds exactly when each weight moved by `in[i] * d * rate`, or by `1 * d * rate` for the bias |
| FlatNetwork.AgreeFromSlots | neural_network.hpp:151-152 | agreement of the arrays from layer `m`'s regions on covers every later layer's deltas and weights |
| FlatNetwork.BlameAgrees | neural_network.hpp:134-162 | a neuron's blame reads only its own output and the next layer's deltas and weights |
| FlatNetwork.BackSumAgrees | neural_network.hpp:158-162 | the error sum reads only the next layer's deltas and weights |
| FlatNetwork.BackTermAgrees | neural_network.hpp:161 | one error term reads only the next layer's delta and weight |
| FlatNetwork.ReadBackTerm | neural_network.hpp:160-161 | `next_d[nn] * next_w[nn * (n_outputs + 1) + neuron]` is the next neuron's delta times the weight with which it reads this neuron |
| FlatNetwork.BackError | neural_network.hpp:158-162 | the error loop sums the deltas of the next layer times their weights into this neuron |
| FlatNetwork.UpdateRow | neural_network.hpp:135-140 | the row update moves weight `i` by `in[i] * d * rate`, the bias by `1 * d * rate`, and touches nothing outside the row |
| FlatNetwork.TuneLayer | neural_network.hpp:123-171 | one tuning block leaves the layer's deltas on the delta rule and its weights on the weight rule, and changes nothing outside the layer's own weight and delta regions |
| FlatNetwork.TuneNext | neural_network.hpp:133-141 | one round of the neuron loop extends the finished deltas and rows by one neuron and keeps everything past it untouched |
| FlatNetwork.DeltaIsDue | neural_network.hpp:134-163 | `blame * dact(out[neuron])` is the delta the rule gives |
| FlatNetwork.TuneFinish | neural_network.hpp:133-141 | after the neuron loop the layer's rules hold and nothing outside its regions has moved |
| FlatNetwork.FinishRows | neural_network.hpp:137-140 | all rows done means the layer's weight rule holds |
| FlatNetwork.FinishDeltas | neural_network.hpp:134-163 | all deltas done means the layer's delta rule holds in the tuned object |
| FlatNetwork.FinishFrames | neural_network.hpp:131-141 | nothing outside the layer's weight and delta regions has moved |
| FlatNetwork.TuneNeuronOf | neural_network.hpp:134-140 | one neuron's pass writes `d = blame * dact(out)` to its delta slot, moves its row by the update, and writes nothing else |
| FlatNetwork.NeuronBlame | neural_network.hpp:134-162 | the blame read mid-block is the answer minus the output, or the back-propagated error, as in the untouched object |
| FlatNetwork.TuneNeuron | neural_network.hpp:133-141 | one neuron's pass keeps the loop's four invariants |
| FlatNetwork.DeltaStep | neural_network.hpp:134 | writing one delta extends the finished deltas and touches no other delta |
| FlatNetwork.NewRow | neural_network.hpp:135-140 | the row just written is the old row moved by the weight rule |
| FlatNetwork.RowsStep | neural_network.hpp:135-140 | after the new row, one more row is done |
| FlatNetwork.EarlierRowsDone | neural_network.hpp:135-140 | finished rows stay finished while their weights and deltas are unchanged |
| FlatNetwork.WeightsFromStep | neural_network.hpp:135-140 | every weight past the new row is still the original |
| FlatNetwork.TuneAgrees | neural_network.hpp:151-155 | while layer `l` is tuned, the regions of layers after it are untouched |
| FlatNetwork.EarlierRowsKept | neural_network.hpp:164-169 | writing row `neuron` leaves the earlier rows of the layer as they were |
| FlatNetwork.Train | neural_network.hpp:120-172 | after `train` the outputs are the forward signals under the old weights, every layer's deltas follow the delta rule, and every layer's weights have moved from the old weights by the weight rule over that layer's input |
| FlatNetwork.TrainedRules | neural_network.hpp:121-149 | the rules stated against the stored outputs hold against the forward signals of the untrained object |
| FlatNetwork.TuneAll | neural_network.hpp:123-171 | the output block and then the hidden blocks from `LAYERS - 2` down to 0 leave every layer on both rules and change only weights and deltas |
| FlatNetwork.TuneOutputLayer | neural_network.hpp:123-142 | the output block puts the last layer on both rules and leaves the earlier weights alone |
| FlatNetwork.TuneLower | neural_network.hpp:145-171 | one hidden round extends the tuned layers down by one and leaves the weights before it alone |
| FlatNetwork.StoredInputReadsOutputs | neural_network.hpp:149 | what a layer reads depends only on the input and the output array |
| FlatNetwork.TuneLayerStep | neural_network.hpp:145-171 | tuning one more hidden layer keeps the later layers' rules and adds this layer's |
| FlatNetwork.WeightsBeforeKept | neural_network.hpp:155 | the weights before layer `layer` are still the original ones once it is tuned |
| FlatNetwork.TunedAboveExtends | neural_network.hpp:145 | the tuned layers grow by one once layer `layer` follows both rules |
| FlatNetwork.TuneKeepsLaterRules | neural_network.hpp:151-155 | tuning layer `layer` keeps the rules already set for the layers after it |
| FlatNetwork.LaterRulesKept | neural_network.hpp:151-155 | a later layer's rules survive a block that touched only layer `layer` |
| FlatNetwork.DeltaRuleKept | neural_network.hpp:151-163 | a layer's delta rule reads only its own slots and the next layer's |
| FlatNetwork.DeltaFollowsKept | neural_network.hpp:158-163 | one neuron's delta rule survives when its delta and the next layer agree |
| FlatNetwork.WeightRuleKept | neural_network.hpp:164-169 | a layer's weight rule reads only the layer's own slots |
| FlatNetwork.RebaseWeightRule | neural_network.hpp:164-169 | a weight rule stated against weights that agree on the layer's region holds against either |
| Shuffle.SwapIndexInRange | example.cpp:144 | `j = i + r / (RAND_MAX / (n - i) + 1)` lies in `[i, n - 1]` for every `r` in `[0, RAND_MAX]` |
| Shuffle.QuotientBelow | example.cpp:144 | `r < d * m` bounds `r / d` below `m` |
| Shuffle.ShuffleFromStep | example.cpp:142-148 | round `i` swaps `i` with a partner in `[i, n)`, and the later rounds continue from there |
| Shuffle.SwapIndex | example.cpp:144 | the partner `j = i + r / (RAND_MAX / (n - i) + 1)`, with C's `/` on non-negative operands (range in `Shuffle.SwapIndexInRange`) |
| Shuffle.Swap | example.cpp:145-147 | the entries at `i` and `j` exchanged, length kept (multiset in `Shuffle.SwapMultiset`) |
| Shuffle.ShuffleFrom | example.cpp:142-148 | the reference rounds `i .. n - 2`, round `i` using call `pos`; length kept (permutation in `Shuffle.ShuffleFromPermutes`) |
| Shuffle.Shuffled | example.cpp:137-150 | the reference `shuffle(array, n)`, rounds `0 .. n - 2`; length kept (permutation in `Shuffle.ShuffledPermutes`) |
| Shuffle.SwapKeeps | example.cpp:145-147 | a swap inside `[0, n)` keeps the multiset of the prefix |
| Shuffle.SwapMultiset | example.cpp:145-147 | a swap keeps the multiset |
| Shuffle.UpdateMultiset | example.cpp:146-147 | overwriting one entry trades its old value for the new one in the multiset |
| Shuffle.ShuffleFromPermutes | example.cpp:142-148 | the rounds from `i` permute `array[0, n)` |
| Shuffle.ShuffleFromKeepsRest | example.cpp:142-148 | the rounds never touch `array[n, ..)` |
| Shuffle.ShuffleFromKeepsDone | example.cpp:142-148 | the rounds from `i` leave the entries before `i` in place |
| Shuffle.ShuffledPermutes | example.cpp:137-150 | `shuffle` permutes `array[0, n)`, leaves the suffix alone, and is the identity for `n <= 1` |
| Shuffle.SwapKeepsDistinct | example.cpp:145-147 | a swap creates no repeated entry |
| Shuffle.ShuffleFromKeepsDistinct | example.cpp:142-148 | the rounds create no repeated entry |
| Shuffle.ShuffledRearranges | example.cpp:137-150 | over the whole array `shuffle` is a permutation, and keeps an array without repeats without repeats |
| Shuffle.ShuffleFromReadsDraws | example.cpp:144 | only the `rand()` values at calls `pos .. pos + n - i - 1` affect the result |
| Shuffle.ShuffleArray | example.cpp:137-150 | the loop computes the reference shuffle, makes one `rand()` call per round (none for `n <= 1`), permutes the prefix, keeps the suffix, and is the identity for `n <= 1` |
| Shuffle.SwapRound | example.cpp:144-147 | one round swaps `array[i]` with the in-range partner `j` |
| Driver.SameEntries | example.cpp:60 | sequences with equal multisets hold the same values |
| Driver.RearrangedOrder | example.cpp:60 | a rearrangement without repeats of a row order is a row order |
| Driver.PartsDisjoint | example.cpp:64-77 | the training part `order[0, 105)` and the test part `order[105, 150)` share no row |
| Driver.InitialOrder | example.cpp:58-60 | `order` becomes a shuffled identity, so it holds every row `0 .. 149` exactly once; it makes 149 `rand()` calls |
| Driver.Epoch | example.cpp:64-69 | an epoch shuffles only the training prefix, keeps `order[105, 150)`, still holds every row once, and trains on `order[0, 105)` in order |
| Driver.Training | example.cpp:63-70 | over all epochs the test part of `order` is unchanged, and every row trained on is a training row of the initial order, never a test row |
| Driver.EpochRowsAreTrainingRows | example.cpp:64-68 | the rows of one epoch are training rows, not test rows, of the order before the epochs |
| Driver.Features | example.cpp:80 | `feat + row * cols` for `row < rows` gives the four features inside `feat` |
| Driver.Labels | example.cpp:82-84 | `label + row * out_cols` for `row < rows` gives the three labels inside `label` |
| Driver.Score | example.cpp:80-84 | a row counts as correct exactly when each of the three predicted values lies within 0.1 of its label |
| Driver.Evaluate | example.cpp:72-91 | the evaluation tests exactly `order[105, 150)`, `correct` counts the close predictions, and `correct + incorrect = 45` |
| Driver.RunExample | example.cpp:53-97 | the test rows are exactly the last 45 entries of the initial shuffle of `0 .. 149`; every one of the 10,500,000 rows trained on is among its first 105 entries and none is a test row; `correct` counts the test rows whose prediction is within 0.1 of the label, and `correct + incorrect = 45` |

## Left out

- Floating point: all values are `real`. `exp`, the sigmoid and rounding are not modelled; the activation (`act`, `dact`, and the sigmoid of `feed`) is an uninterpreted function. Whether training converges and the accuracy it reaches are out of scope.
- `pure_simd`: its source is not part of this model. `simd::sum`, elementwise `+`, `-`, `*` and `scalar` are plain sequence operations (module `Vectors`); summation order does not matter over reals.
- `readIris`: file I/O and parsing are left out. `feat` and `label` are parameters of the driver.
- `CHECK_TIME`, `funcTime`, the chrono helpers and every `printf`: timing and output.
- libc `rand`/`srand`: their internals and `RAND_MAX` are left out. `rand()` is an oracle with values in `[0, randMax]`, and `srand(0)` is modelled as starting at call position 0.
- The `error[NEURONS]` member of `neural_network` is never used, so it is left out.
- Indeterminate buffers are modelled as zeros. These are `output` and `delta` of `neural_network` after its constructor, and the `deltas` of mlp.hpp layers and the Answer layer's buffer before their first write. Over reals no result depends on their initial values. The one indeterminate value that is read is the Hidden layer's bias-slot delta: mlp.hpp:154 reads it once and multiplies it by the slope 0 at the pinned bias. No predecessor reads that slot (`Layers.BiasDeltaUnread`).
- The construction order of the `std::tuple` elements is implementation-defined. `Mlp.NewMlp` therefore takes any ordering as a parameter and claims nothing about which layer draws first.
- C integer widths: `unsigned` offsets and `int` loop counters are unbounded here. Only the `fast_rand` seed wraps modulo 2^32.
- Driver.RunExample: the trained network's `predict` is a parameter `predict`, and the rows handed to `train` are returned as the sequence `fed`. The network is not threaded through the 100000 epochs.
- Shuffle.ShuffleArray: `n` is a `nat` bounded by the array length. The source's behaviour for a negative `n` (nothing happens) and for an `n` beyond the array is not modelled.
- Driver.Score: `abs` is taken as the absolute value of a `float`, which is the overload `<stdlib.h>` provides in C++.
