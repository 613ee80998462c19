/**
  The four `Layer` specialisations of mlp.hpp and their per-layer contract:
  construction (weights drawn from `fast_rand`), `load` on the Input and
  Answer layers, `feed` and `tune` on the trainable Hidden and Output layers.

  A layer is a value; an operation returns the updated layer. The activation
  (a sigmoid in the source) is a parameter `act`, so nothing here depends on
  its values.
*/
module Layers {
  import opened Vectors
  import opened Topology
  import opened FastRand

  /** `simd::vector<simd::vector<float_t, INPUTS + 1>, OUTPUTS>`: one row per output neuron. */
  type Matrix = seq<seq<real>>

  datatype Layer =
    | Input(outputs: seq<real>)
    | Hidden(weights: Matrix, outputs: seq<real>, deltas: seq<real>)
    | Output(weights: Matrix, outputs: seq<real>, deltas: seq<real>)
    | Answer(outputs: seq<real>)
  {
    predicate Trainable()
    {
      Hidden? || Output?
    }
  }

  predicate IsMatrix(w: Matrix, rows: nat, cols: nat)
  {
    |w| == rows && forall i :: 0 <= i < rows ==> |w[i]| == cols
  }

  /** The buffers of `l` have the sizes the specialisation `t` declares. */
  predicate Fits(l: Layer, t: LayerType)
  {
    match t
    case InputType(n) => l.Input? && |l.outputs| == n + 1
    case HiddenType(a, b) => l.Hidden? && IsMatrix(l.weights, b, a + 1) && |l.outputs| == b + 1 && |l.deltas| == b + 1
    case OutputType(a, b) => l.Output? && IsMatrix(l.weights, b, a + 1) && |l.outputs| == b && |l.deltas| == b
    case AnswerType(n) => l.Answer? && |l.outputs| == n
  }

  /** The trailing bias slot of an Input or Hidden signal buffer holds 1. */
  predicate BiasPinned(l: Layer)
  {
    (l.Input? || l.Hidden?) ==> |l.outputs| > 0 && l.outputs[|l.outputs| - 1] == 1.0
  }

  // ---------------------------------------------------------------------------
  // Construction
  // ---------------------------------------------------------------------------

  /** A newly constructed layer and the value of the global seed after its construction. */
  datatype Built = Built(layer: Layer, seed: Seed)

  /** The weights read row after row, as the constructor's nested loop visits them. */
  function Flatten(w: Matrix): seq<real>
  {
    if |w| == 0 then [] else w[0] + Flatten(w[1..])
  }

  /** Draws scaled into weights, one for one. */
  function Scaled(vs: seq<nat>): (r: seq<real>)
    requires forall k :: 0 <= k < |vs| ==> vs[k] <= FAST_RAND_MAX
    ensures |r| == |vs|
    ensures forall k :: 0 <= k < |r| ==> 0.0 <= r[k] <= 1.0
  {
    seq(|vs|, k requires 0 <= k < |vs| => InitialWeight(vs[k]))
  }

  /** Every entry of `w` lies in [0, 1]. */
  predicate InUnit(w: Matrix)
  {
    forall i, k :: 0 <= i < |w| && 0 <= k < |w[i]| ==> 0.0 <= w[i][k] <= 1.0
  }

  /**
    The nested loop of the trainable constructors: `rows * cols` calls of
    `fast_rand()`, consumed row by row, each scaled into [0, 1].
  */
  function InitWeights(rows: nat, cols: nat, s: Seed): (r: (Matrix, Seed))
    ensures IsMatrix(r.0, rows, cols)
    ensures InUnit(r.0)
    ensures r.1 == DrawMany(s, rows * cols).seed
    decreases rows
  {
    if rows == 0 then ([], s)
    else
      var first := DrawMany(s, cols);
      var rest := InitWeights(rows - 1, cols, first.seed);
      var w := [Scaled(first.values)] + rest.0;
      assert forall i :: 1 <= i < |w| ==> w[i] == rest.0[i - 1];
      DrawRow(s, rows, cols);
      (w, rest.1)
  }

  /** The draws of `rows` rows are the draws of the first row followed by those of the other rows. */
  lemma DrawRow(s: Seed, rows: nat, cols: nat)
    requires rows > 0
    ensures var first := DrawMany(s, cols);
            var rest := DrawMany(first.seed, (rows - 1) * cols);
            && DrawMany(s, rows * cols).values == first.values + rest.values
            && DrawMany(s, rows * cols).seed == rest.seed
  {
    assert rows * cols == cols + (rows - 1) * cols;
    DrawManySplit(s, cols, (rows - 1) * cols);
  }

  /** Scaling is elementwise, so it distributes over concatenation. */
  lemma ScaledConcat(a: seq<nat>, b: seq<nat>)
    requires forall k :: 0 <= k < |a| ==> a[k] <= FAST_RAND_MAX
    requires forall k :: 0 <= k < |b| ==> b[k] <= FAST_RAND_MAX
    ensures Scaled(a + b) == Scaled(a) + Scaled(b)
  {
    assert forall k :: 0 <= k < |a| + |b| ==> Scaled(a + b)[k] == (Scaled(a) + Scaled(b))[k];
  }

  /** Read row after row, the initial weights are the draws of the loop, scaled, in draw order. */
  lemma {:induction false} InitWeightsDraws(rows: nat, cols: nat, s: Seed)
    ensures Flatten(InitWeights(rows, cols, s).0) == Scaled(DrawMany(s, rows * cols).values)
    decreases rows
  {
    if rows > 0 {
      var first := DrawMany(s, cols);
      var rest := DrawMany(first.seed, (rows - 1) * cols);
      var w := InitWeights(rows, cols, s).0;
      InitWeightsDraws(rows - 1, cols, first.seed);
      DrawRow(s, rows, cols);
      ScaledConcat(first.values, rest.values);
      assert w[0] == Scaled(first.values);
      assert w[1..] == InitWeights(rows - 1, cols, first.seed).0;
    }
  }

  /** The weights of a trainable constructor, together with their draw order. */
  function NewWeights(rows: nat, cols: nat, s: Seed): (r: (Matrix, Seed))
    ensures IsMatrix(r.0, rows, cols) && InUnit(r.0)
    ensures r.1 == DrawMany(s, rows * cols).seed
    ensures Flatten(r.0) == Scaled(DrawMany(s, rows * cols).values)
  {
    InitWeightsDraws(rows, cols, s);
    InitWeights(rows, cols, s)
  }

  /** The number of `fast_rand()` calls the constructor of a layer of type `t` makes. */
  function DrawCount(t: LayerType): nat
  {
    if t.Trainable() then t.outputs * (t.inputs + 1) else 0
  }

  /** The constructor of one layer of type `t`, entered with global seed `s`. */
  function NewLayer(t: LayerType, s: Seed): (r: Built)
    ensures Fits(r.layer, t)
    ensures BiasPinned(r.layer)
    ensures r.seed == DrawMany(s, DrawCount(t)).seed
    ensures r.layer.Trainable() ==> InUnit(r.layer.weights)
    ensures r.layer.Trainable() ==> Flatten(r.layer.weights) == Scaled(DrawMany(s, DrawCount(t)).values)
    ensures forall i :: 0 <= i < |r.layer.outputs| - 1 ==> r.layer.outputs[i] == 0.0
  {
    match t
    case InputType(n) => Built(Input(Scalar(n, 0.0) + [1.0]), s)
    case HiddenType(a, b) =>
      var w := NewWeights(b, a + 1, s);
      Built(Hidden(w.0, Scalar(b, 0.0) + [1.0], Scalar(b + 1, 0.0)), w.1)
    case OutputType(a, b) =>
      var w := NewWeights(b, a + 1, s);
      Built(Output(w.0, Scalar(b, 0.0), Scalar(b, 0.0)), w.1)
    case AnswerType(n) => Built(Answer(Scalar(n, 0.0)), s)
  }

  // ---------------------------------------------------------------------------
  // load
  // ---------------------------------------------------------------------------

  /** `Layer<INPUT<N>>::load`: copies the first N input values; the bias slot is left alone. */
  function LoadInput(l: Layer, input: seq<real>): (r: Layer)
    requires l.Input? && |l.outputs| > 0
    requires |input| >= |l.outputs| - 1
    ensures r.Input? && |r.outputs| == |l.outputs|
    ensures r.outputs[..|r.outputs| - 1] == input[..|l.outputs| - 1]
    ensures r.outputs[|r.outputs| - 1] == l.outputs[|l.outputs| - 1]
    ensures BiasPinned(l) ==> BiasPinned(r)
  {
    var n := |l.outputs| - 1;
    Input(input[..n] + [l.outputs[n]])
  }

  /** `Layer<OUTPUT<N>>::load`: the answer buffer becomes the first N values of the target. */
  function LoadAnswer(l: Layer, answer: seq<real>): (r: Layer)
    requires l.Answer?
    requires |answer| >= |l.outputs|
    ensures r.Answer? && r.outputs == answer[..|l.outputs|]
  {
    Answer(answer[..|l.outputs|])
  }

  /** A load forgets what the buffer held before: loading twice is loading the second input. */
  lemma LoadInputOverwrites(l: Layer, a: seq<real>, b: seq<real>)
    requires l.Input? && |l.outputs| > 0
    requires |a| >= |l.outputs| - 1 && |b| >= |l.outputs| - 1
    ensures LoadInput(LoadInput(l, a), b) == LoadInput(l, b)
  {
  }

  // ---------------------------------------------------------------------------
  // feed
  // ---------------------------------------------------------------------------

  /** The predecessor's signal `prev` has one entry per weight column of `l`. */
  predicate FeedCompatible(l: Layer, prev: seq<real>)
  {
    && l.Trainable()
    && |l.outputs| >= |l.weights|
    && forall i :: 0 <= i < |l.weights| ==> |l.weights[i]| == |prev|
  }

  /** The neurons of `feed`, one per weight row: the activation of each row's weighted input. */
  function Activations(prev: seq<real>, w: Matrix, act: real -> real): (r: seq<real>)
    requires forall i :: 0 <= i < |w| ==> |w[i]| == |prev|
    ensures |r| == |w|
  {
    if |w| == 0 then [] else Activations(prev, w[..|w| - 1], act) + [act(Dot(prev, w[|w| - 1]))]
  }

  /** Neuron `i` is the activation of the dot product of the signal with weight row `i`. */
  lemma {:induction false} ActivationsAt(prev: seq<real>, w: Matrix, act: real -> real)
    requires forall i :: 0 <= i < |w| ==> |w[i]| == |prev|
    ensures forall i :: 0 <= i < |w| ==> Activations(prev, w, act)[i] == act(Dot(prev, w[i]))
    decreases |w|
  {
    if |w| > 0 {
      ActivationsAt(prev, w[..|w| - 1], act);
    }
  }

  /**
    `feed(prev_layer)`: output neuron `i < OUTPUTS` becomes the activation of
    the dot product of the predecessor's whole signal with weight row `i`;
    any further slot (the Hidden layer's bias) and the weights and deltas are
    left alone.
  */
  function Feed(l: Layer, prev: seq<real>, act: real -> real): (r: Layer)
    requires FeedCompatible(l, prev)
    ensures r.Hidden? == l.Hidden? && r.Output? == l.Output?
    ensures r.weights == l.weights && r.deltas == l.deltas
    ensures |r.outputs| == |l.outputs|
  {
    l.(outputs := Activations(prev, l.weights, act) + l.outputs[|l.weights|..])
  }

  /**
    The signal `feed` leaves: neuron `i` of each weight row is the activation
    of the weighted sum of the predecessor's signal, and every further slot
    keeps its value.
  */
  lemma FeedSignal(l: Layer, prev: seq<real>, act: real -> real)
    requires FeedCompatible(l, prev)
    ensures var r := Feed(l, prev, act);
            && (forall i :: 0 <= i < |l.weights| ==> r.outputs[i] == act(Dot(prev, l.weights[i])))
            && (forall i :: |l.weights| <= i < |l.outputs| ==> r.outputs[i] == l.outputs[i])
  {
    ActivationsAt(prev, l.weights, act);
  }

  /** Feeding keeps the layer's shape and its bias slot. */
  lemma FeedKeepsShape(l: Layer, prev: seq<real>, act: real -> real, t: LayerType)
    requires FeedCompatible(l, prev) && Fits(l, t)
    ensures Fits(Feed(l, prev, act), t)
    ensures BiasPinned(l) ==> BiasPinned(Feed(l, prev, act))
  {
    FeedSignal(l, prev, act);
  }

  /**
    What `feed` computes depends only on the weights and the predecessor's
    signal, never on the outputs left by an earlier pass.
  */
  lemma FeedOverwrites(l: Layer, p: seq<real>, q: seq<real>, act: real -> real)
    requires FeedCompatible(l, p) && |q| == |p|
    ensures FeedCompatible(Feed(l, p, act), q)
    ensures Feed(Feed(l, p, act), q, act) == Feed(l, q, act)
  {
    FeedSignal(l, p, act);
  }

  /**
    The dot product that `feed` forms spans INPUTS + 1 terms: when the
    predecessor's last slot is its bias 1, the last weight of the row is
    added unscaled to the weighted sum of the INPUTS proper inputs.
  */
  lemma {:induction false} FeedIncludesBias(prev: seq<real>, row: seq<real>)
    requires |prev| == |row| > 0
    requires prev[|prev| - 1] == 1.0
    ensures Dot(prev, row) == Dot(prev[..|prev| - 1], row[..|row| - 1]) + row[|row| - 1]
  {
  }

  // ---------------------------------------------------------------------------
  // tune
  // ---------------------------------------------------------------------------

  /** Column `i` of a weight matrix: the weights from neuron `i` of the layer below to every neuron of this one. */
  function Column(w: Matrix, i: nat): (r: seq<real>)
    requires forall j :: 0 <= j < |w| ==> i < |w[j]|
    ensures |r| == |w|
  {
    seq(|w|, j requires 0 <= j < |w| => w[j][i])
  }

  /** `o * (scalar(1) - o)`: the sigmoid derivative written in terms of the sigmoid's output. */
  function SigmoidSlope(o: seq<real>): (r: seq<real>)
    ensures |r| == |o|
  {
    Mul(o, Sub(Scalar(|o|, 1.0), o))
  }

  /**
    The shared weight update of both `tune`s:
    `weights[i] = weights[i] + inputs * scalar(rate * deltas[i])` for every row,
    the bias column included.
  */
  function UpdateWeights(w: Matrix, inputs: seq<real>, deltas: seq<real>, rate: real): (r: Matrix)
    requires |deltas| >= |w|
    requires forall i :: 0 <= i < |w| ==> |w[i]| == |inputs|
    ensures |r| == |w|
    ensures forall i :: 0 <= i < |w| ==> |r[i]| == |inputs|
  {
    var deltaRate := Mul(Scalar(|deltas|, rate), deltas);
    seq(|w|, i requires 0 <= i < |w| => Add(w[i], Mul(inputs, Scalar(|inputs|, deltaRate[i]))))
  }

  /** Every weight moves by `rate * delta * input`, in its own row and column. */
  lemma UpdateWeightsAt(w: Matrix, inputs: seq<real>, deltas: seq<real>, rate: real)
    requires |deltas| >= |w|
    requires forall i :: 0 <= i < |w| ==> |w[i]| == |inputs|
    ensures forall i, k :: 0 <= i < |w| && 0 <= k < |inputs| ==>
              UpdateWeights(w, inputs, deltas, rate)[i][k] == w[i][k] + rate * deltas[i] * inputs[k]
  {
  }

  /** The neighbours `prev` and `next` have the buffers `tune` on `l` reads. */
  predicate TuneCompatible(prev: Layer, l: Layer, next: Layer)
  {
    && FeedCompatible(l, prev.outputs)
    && |l.deltas| == |l.outputs|
    && (l.Hidden? ==>
          && (next.Hidden? || next.Output?)
          && |l.outputs| == |l.weights| + 1
          && |next.deltas| >= |next.weights|
          && forall j :: 0 <= j < |next.weights| ==> |next.weights[j]| == |l.outputs|)
    && (l.Output? ==>
          && next.Answer?
          && |next.outputs| == |l.outputs| == |l.weights|)
  }

  /** The error term of Hidden `tune`: `sum over j < next.size() of next_deltas[j] * next_weights[j][i]`. */
  function BackError(next: Layer, i: nat): real
    requires next.Trainable() && |next.deltas| >= |next.weights|
    requires forall j :: 0 <= j < |next.weights| ==> i < |next.weights[j]|
  {
    Dot(next.deltas[..|next.weights|], Column(next.weights, i))
  }

  /**
    The deltas `tune` computes: `(answers - outputs) * slope` for the Output
    layer, the back-propagated error times the slope for a Hidden layer. The
    Hidden layer's bias slot keeps its old delta times the slope: that slot is
    read only here, and multiplied by the slope 0 at a pinned bias, and no
    predecessor reads it (`BiasDeltaUnread`).
  */
  function NewDeltas(l: Layer, next: Layer): (d: seq<real>)
    requires l.Trainable() && |l.deltas| == |l.outputs|
    requires l.Output? ==> next.Answer? && |next.outputs| == |l.outputs|
    requires l.Hidden? ==> && next.Trainable() && |next.deltas| >= |next.weights|
                           && forall j :: 0 <= j < |next.weights| ==> |next.weights[j]| == |l.outputs|
    ensures |d| == |l.outputs|
  {
    var o := l.outputs;
    var raw := if l.Output? then Sub(next.outputs, o)
               else seq(|o|, i requires 0 <= i < |o| => if i < |l.weights| && i < |o| - 1 then BackError(next, i) else l.deltas[i]);
    Mul(raw, SigmoidSlope(o))
  }

  /**
    `tune(prev_layer, next_layer, rate)`: only the weights and deltas of `l`
    change; their sizes stay. What they become is stated by `TuneDeltas`
    and `TuneWeights`.
  */
  function Tune(l: Layer, prev: Layer, next: Layer, rate: real): (r: Layer)
    requires TuneCompatible(prev, l, next)
    ensures r.Hidden? == l.Hidden? && r.Output? == l.Output?
    ensures r.outputs == l.outputs
    ensures |r.deltas| == |l.deltas|
    ensures IsMatrix(r.weights, |l.weights|, |prev.outputs|)
  {
    var d := NewDeltas(l, next);
    var w := UpdateWeights(l.weights, prev.outputs, d, rate);
    if l.Output? then Output(w, l.outputs, d) else Hidden(w, l.outputs, d)
  }

  /**
    The deltas of `tune`. The Output layer's delta is the target error times
    the slope `out * (1 - out)`; a Hidden layer's delta is the error
    propagated back through the successor's weights times the slope, and its
    bias-slot delta is 0 because the slope at the constant 1 is 0.
  */
  lemma TuneDeltas(l: Layer, prev: Layer, next: Layer, rate: real)
    requires TuneCompatible(prev, l, next)
    ensures var d := Tune(l, prev, next, rate).deltas;
            && (l.Output? ==> forall i :: 0 <= i < |l.outputs| ==>
                  d[i] == (next.outputs[i] - l.outputs[i]) * (l.outputs[i] * (1.0 - l.outputs[i])))
            && (l.Hidden? ==> forall i :: 0 <= i < |l.weights| ==>
                  d[i] == BackError(next, i) * (l.outputs[i] * (1.0 - l.outputs[i])))
            && (l.Hidden? && BiasPinned(l) ==> d[|l.weights|] == 0.0)
  {
  }

  /**
    A predecessor never reads the bias-slot delta of its Hidden successor:
    `tune` sums only over the successor's `OUTPUTS` neurons, so changing the
    successor's last delta leaves the result of `tune` unchanged.
  */
  lemma BiasDeltaUnread(l: Layer, prev: Layer, next: Layer, rate: real, x: real)
    requires TuneCompatible(prev, l, next) && l.Hidden? && next.Hidden?
    requires |next.deltas| == |next.weights| + 1
    ensures var n' := Hidden(next.weights, next.outputs, next.deltas[|next.weights| := x]);
            TuneCompatible(prev, l, n') && Tune(l, prev, n', rate) == Tune(l, prev, next, rate)
  {
    var n' := Hidden(next.weights, next.outputs, next.deltas[|next.weights| := x]);
    assert n'.deltas[..|next.weights|] == next.deltas[..|next.weights|];
    forall i | 0 <= i < |l.weights|
      ensures BackError(n', i) == BackError(next, i)
    {
    }
    var o := l.outputs;
    var raw' := seq(|o|, i requires 0 <= i < |o| => if i < |l.weights| && i < |o| - 1 then BackError(n', i) else l.deltas[i]);
    var raw := seq(|o|, i requires 0 <= i < |o| => if i < |l.weights| && i < |o| - 1 then BackError(next, i) else l.deltas[i]);
    assert raw' == raw;
  }

  /** The weights of `tune`: every weight, bias column included, moves by `rate * delta * input`. */
  lemma TuneWeights(l: Layer, prev: Layer, next: Layer, rate: real)
    requires TuneCompatible(prev, l, next)
    ensures var r := Tune(l, prev, next, rate);
            forall i, k :: 0 <= i < |l.weights| && 0 <= k < |prev.outputs| ==>
              r.weights[i][k] == l.weights[i][k] + rate * r.deltas[i] * prev.outputs[k]
  {
    UpdateWeightsAt(l.weights, prev.outputs, NewDeltas(l, next), rate);
  }

  /** Tuning keeps the layer's shape and its bias slot. */
  lemma TuneKeepsShape(l: Layer, prev: Layer, next: Layer, rate: real, t: LayerType)
    requires TuneCompatible(prev, l, next) && Fits(l, t)
    ensures Fits(Tune(l, prev, next, rate), t)
    ensures BiasPinned(l) ==> BiasPinned(Tune(l, prev, next, rate))
  {
  }

  /**
    When the predecessor's signal ends in its bias 1, the last weight of every
    row (the bias weight) moves by exactly `rate * delta`.
  */
  lemma TuneMovesBiasByDelta(l: Layer, prev: Layer, next: Layer, rate: real)
    requires TuneCompatible(prev, l, next) && BiasPinned(prev) && (prev.Input? || prev.Hidden?)
    ensures var r := Tune(l, prev, next, rate);
            var n := |prev.outputs| - 1;
            forall i :: 0 <= i < |l.weights| ==> r.weights[i][n] == l.weights[i][n] + rate * r.deltas[i]
  {
    TuneWeights(l, prev, next, rate);
  }
}
