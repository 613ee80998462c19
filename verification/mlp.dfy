/**
  The network engine `MLP` of mlp.hpp: the layer tuple, its construction,
  the forward pass `forward`, the backward pass `backprog`, and the public
  `train` and `predict`.

  The tuple of layers is a sequence indexed like `std::get<k>(layers)`. The
  compile-time index sequences that drive the fold expressions are real
  sequences here, and a pass is one step per index, taken in sequence order
  (the order of a comma fold).
*/
module Mlp {
  import opened Vectors
  import opened Topology
  import opened Layers
  import opened FastRand

  /** Layer `l` fits the layer type of position `k` of the chain, and its bias slot holds 1. */
  predicate LayerOk(s: Shape, k: nat, l: Layer)
  {
    k < NLayers(s) && Fits(l, LayerTypeAt(s, k)) && BiasPinned(l)
  }

  /** Every layer of the chain fits the layer type of its position, and every bias slot holds 1. */
  predicate Wellformed(s: Shape, c: seq<Layer>)
  {
    && |c| == NLayers(s)
    && (forall k {:trigger LayerOk(s, k, c[k])} :: 0 <= k < |c| ==> LayerOk(s, k, c[k]))
  }

  /** Three consecutive layers of a well-formed chain can be fed and tuned. */
  lemma Neighbours(s: Shape, i: nat, prev: Layer, l: Layer, next: Layer)
    requires i < NLayers(s) - 2
    requires LayerOk(s, i, prev) && LayerOk(s, i + 1, l) && LayerOk(s, i + 2, next)
    ensures FeedCompatible(l, prev.outputs)
    ensures TuneCompatible(prev, l, next)
  {
  }

  // ---------------------------------------------------------------------------
  // Construction
  // ---------------------------------------------------------------------------

  /** The number of draws made by constructing the layers at positions `order`, in that order. */
  function TotalDraws(types: seq<LayerType>, order: seq<nat>): nat
    requires forall i :: 0 <= i < |order| ==> order[i] < |types|
  {
    if |order| == 0 then 0 else DrawCount(types[order[0]]) + TotalDraws(types, order[1..])
  }

  /** A freshly constructed layer of type `t`: it fits `t`, its bias slot holds 1, and its weights lie in [0, 1]. */
  predicate Initialised(l: Layer, t: LayerType)
  {
    && Fits(l, t)
    && BiasPinned(l)
    && (l.Trainable() ==> InUnit(l.weights))
  }

  /**
    Constructs the layers at positions `order`, one after the other, threading
    the global seed; the positions not in `order` keep what `acc` holds.
  */
  function Construct(types: seq<LayerType>, order: seq<nat>, seed: Seed, acc: seq<Layer>): (r: (seq<Layer>, Seed))
    requires |acc| == |types|
    requires forall i :: 0 <= i < |order| ==> order[i] < |types|
    ensures |r.0| == |types|
    ensures forall k :: 0 <= k < |types| ==> if k in order then Initialised(r.0[k], types[k]) else r.0[k] == acc[k]
    ensures r.1 == DrawMany(seed, TotalDraws(types, order)).seed
    decreases |order|
  {
    if |order| == 0 then (acc, seed)
    else
      var q := order[0];
      var b := NewLayer(types[q], seed);
      var rest := Construct(types, order[1..], b.seed, acc[q := b.layer]);
      assert forall k :: k in order <==> k == q || k in order[1..];
      DrawManySplit(seed, DrawCount(types[q]), TotalDraws(types, order[1..]));
      rest
  }

  /** `order` lists each of the positions `0 .. n - 1` exactly once. */
  predicate IsOrdering(order: seq<nat>, n: nat)
  {
    && |order| == n
    && (forall i :: 0 <= i < n ==> order[i] < n)
    && (forall k :: 0 <= k < n ==> k in order)
  }

  /**
    The implicit constructor of `MLP`: every element of the layer tuple is
    default-constructed. The order in which a tuple constructs its elements
    is implementation-defined, so it is a parameter: any ordering of the
    positions. Whatever the order, every layer fits its type, every bias slot
    holds 1, and every initial weight lies in [0, 1].
  */
  function NewMlp(s: Shape, order: seq<nat>, seed: Seed): (r: (seq<Layer>, Seed))
    requires IsOrdering(order, NLayers(s))
    ensures Wellformed(s, r.0)
    ensures forall k :: 0 <= k < |r.0| ==> Initialised(r.0[k], LayerTypeAt(s, k))
    ensures r.1 == DrawMany(seed, TotalDraws(Build(s), order)).seed
  {
    BuildShape(s);
    Construct(Build(s), order, seed, seq(NLayers(s), _ => Answer([])))
  }

  // ---------------------------------------------------------------------------
  // forward
  // ---------------------------------------------------------------------------

  /** `r` is `l` after `feed` from a predecessor whose signal is `prev`. */
  predicate FedFrom(r: Layer, l: Layer, prev: seq<real>, act: real -> real)
  {
    FeedCompatible(l, prev) && r == Feed(l, prev, act)
  }

  /** Layer `i + 1` of `r` is layer `i + 1` of `c` fed from layer `i` of `r`. */
  predicate FedAt(r: seq<Layer>, c: seq<Layer>, i: nat, act: real -> real)
  {
    i + 1 < |r| && i + 1 < |c| && FedFrom(r[i + 1], c[i + 1], r[i].outputs, act)
  }

  /** One term of the forward fold: `std::get<i + 1>(layers).feed(std::get<i>(layers))`. */
  function FeedStep(s: Shape, c: seq<Layer>, i: nat, act: real -> real): (r: seq<Layer>)
    requires Wellformed(s, c) && i < NLayers(s) - 2
    ensures |r| == |c|
    ensures FedFrom(r[i + 1], c[i + 1], c[i].outputs, act)
    ensures forall k :: 0 <= k < |c| && k != i + 1 ==> r[k] == c[k]
  {
    Neighbours(s, i, c[i], c[i + 1], c[i + 2]);
    c[i + 1 := Feed(c[i + 1], c[i].outputs, act)]
  }

  /** A feed step keeps the chain well formed: `feed` writes signals only and never the bias slot. */
  lemma FeedStepKeepsWellformed(s: Shape, c: seq<Layer>, i: nat, act: real -> real)
    requires Wellformed(s, c) && i < NLayers(s) - 2
    ensures Wellformed(s, FeedStep(s, c, i, act))
  {
    assert LayerOk(s, i, c[i]) && LayerOk(s, i + 1, c[i + 1]) && LayerOk(s, i + 2, c[i + 2]);
    FeedKeepsShape(c[i + 1], c[i].outputs, act, LayerTypeAt(s, i + 1));
    assert LayerOk(s, i + 1, FeedStep(s, c, i, act)[i + 1]);
  }

  /** The fold `((feed step for I), ...)` over an index sequence, left to right. */
  function RunFeeds(s: Shape, c: seq<Layer>, sched: seq<nat>, act: real -> real): (r: seq<Layer>)
    requires Wellformed(s, c)
    requires forall i :: 0 <= i < |sched| ==> sched[i] < NLayers(s) - 2
    ensures |r| == |c|
    decreases |sched|
  {
    if |sched| == 0 then c
    else
      FeedStepKeepsWellformed(s, c, sched[0], act);
      RunFeeds(s, FeedStep(s, c, sched[0], act), sched[1..], act)
  }

  /** The forward fold keeps the chain well formed. */
  lemma {:induction false} RunFeedsKeepsWellformed(s: Shape, c: seq<Layer>, sched: seq<nat>, act: real -> real)
    requires Wellformed(s, c)
    requires forall i :: 0 <= i < |sched| ==> sched[i] < NLayers(s) - 2
    ensures Wellformed(s, RunFeeds(s, c, sched, act))
    decreases |sched|
  {
    if |sched| > 0 {
      FeedStepKeepsWellformed(s, c, sched[0], act);
      RunFeedsKeepsWellformed(s, FeedStep(s, c, sched[0], act), sched[1..], act);
    }
  }

  /** `r` is `l` after the Input layer's `load` of `input`. */
  predicate LoadedFrom(r: Layer, l: Layer, input: seq<real>)
  {
    l.Input? && |l.outputs| > 0 && |input| >= |l.outputs| - 1 && r == LoadInput(l, input)
  }

  /** The chain after the Input layer's `load`: only layer 0 changes, and it stays well formed. */
  function LoadInputLayer(s: Shape, c: seq<Layer>, input: seq<real>): (r: seq<Layer>)
    requires Wellformed(s, c) && |input| >= s.inputs
    ensures Wellformed(s, r) && |r| == |c|
    ensures LoadedFrom(r[INPUT_LAYER], c[INPUT_LAYER], input)
    ensures forall k :: INPUT_LAYER < k < |c| ==> r[k] == c[k]
  {
    assert LayerOk(s, INPUT_LAYER, c[INPUT_LAYER]);
    var l := LoadInput(c[INPUT_LAYER], input);
    assert LayerOk(s, INPUT_LAYER, l);
    c[INPUT_LAYER := l]
  }

  /** `forward(input, make_index_sequence<N_LAYERS - 2>)`. */
  function Forward(s: Shape, c: seq<Layer>, input: seq<real>, act: real -> real): (r: seq<Layer>)
    requires Wellformed(s, c) && |input| >= s.inputs
    ensures Wellformed(s, r)
  {
    var loaded := LoadInputLayer(s, c, input);
    RunFeedsKeepsWellformed(s, loaded, MakeIndexSequence(NLayers(s) - 2), act);
    RunFeeds(s, loaded, MakeIndexSequence(NLayers(s) - 2), act)
  }

  /** The indices `k, k + 1, ..., n - 1`. */
  function IndexRange(k: nat, n: nat): (r: seq<nat>)
    requires k <= n
    ensures |r| == n - k
    ensures forall i :: 0 <= i < |r| ==> k <= r[i] < n
    decreases n - k
  {
    if k == n then [] else [k] + IndexRange(k + 1, n)
  }

  /** The range from `k` is the suffix from `k` of `make_index_sequence<n>`. */
  lemma {:induction false} IndexRangeIsSuffix(k: nat, n: nat)
    requires k <= n
    ensures IndexRange(k, n) == MakeIndexSequence(n)[k..]
    decreases n - k
  {
    if k < n {
      IndexRangeIsSuffix(k + 1, n);
      assert MakeIndexSequence(n)[k..] == [k] + MakeIndexSequence(n)[k + 1..];
    }
  }

  /** A nonempty range starts at `k` and continues with the range from `k + 1`. */
  lemma IndexRangeStep(k: nat, n: nat)
    requires k < n
    ensures IndexRange(k, n)[0] == k
    ensures IndexRange(k, n)[1..] == IndexRange(k + 1, n)
  {
  }

  /**
    The forward fold over the indices `k .. n - 1` (n = N_LAYERS - 2) only
    writes layers `k + 1 .. n`: every layer `j <= k`, and the Answer layer,
    keeps its state.
  */
  lemma {:induction false} RunFeedsKeeps(s: Shape, c: seq<Layer>, k: nat, j: nat, act: real -> real)
    requires Wellformed(s, c) && k <= NLayers(s) - 2
    requires j <= k || j == NLayers(s) - 1
    ensures RunFeeds(s, c, IndexRange(k, NLayers(s) - 2), act)[j] == c[j]
    decreases NLayers(s) - 2 - k
  {
    var n := NLayers(s) - 2;
    if k < n {
      var c1 := FeedStep(s, c, k, act);
      FeedStepKeepsWellformed(s, c, k, act);
      IndexRangeStep(k, n);
      RunFeedsKeeps(s, c1, k + 1, j, act);
    }
  }

  /**
    Running the forward fold over the indices `k .. n - 1` (n = N_LAYERS - 2)
    feeds each layer `i + 1`, `k <= i < n`, from its predecessor's signal as
    that fold has just left it.
  */
  lemma {:induction false} RunFeedsFeeds(s: Shape, c: seq<Layer>, k: nat, i: nat, act: real -> real)
    requires Wellformed(s, c) && k <= i < NLayers(s) - 2
    ensures FedAt(RunFeeds(s, c, IndexRange(k, NLayers(s) - 2), act), c, i, act)
    decreases i - k
  {
    var n := NLayers(s) - 2;
    var c1 := FeedStep(s, c, k, act);
    FeedStepKeepsWellformed(s, c, k, act);
    IndexRangeStep(k, n);
    var r := RunFeeds(s, c1, IndexRange(k + 1, n), act);
    if i == k {
      RunFeedsKeeps(s, c1, k + 1, k, act);
      RunFeedsKeeps(s, c1, k + 1, k + 1, act);
    } else {
      RunFeedsFeeds(s, c1, k + 1, i, act);
      assert c1[i + 1] == c[i + 1];
    }
  }

  /**
    The forward pass loads the input into layer 0, then feeds layers
    1 .. N_LAYERS - 2 in increasing order, each from its immediate
    predecessor's freshly computed signal; the Answer layer is not touched.
  */
  lemma ForwardResult(s: Shape, c: seq<Layer>, input: seq<real>, act: real -> real)
    requires Wellformed(s, c) && |input| >= s.inputs
    ensures var r := Forward(s, c, input, act);
            && |r| == NLayers(s)
            && LoadedFrom(r[INPUT_LAYER], c[INPUT_LAYER], input)
            && (forall i :: 0 <= i < NLayers(s) - 2 ==> FedAt(r, c, i, act))
            && r[AnswerLayer(s)] == c[AnswerLayer(s)]
  {
    var loaded := LoadInputLayer(s, c, input);
    var n := NLayers(s) - 2;
    IndexRangeIsSuffix(0, n);
    assert MakeIndexSequence(n)[0..] == MakeIndexSequence(n);
    RunFeedsKeeps(s, loaded, 0, INPUT_LAYER, act);
    RunFeedsKeeps(s, loaded, 0, n + 1, act);
    var r := Forward(s, c, input, act);
    forall i | 0 <= i < n
      ensures FedAt(r, c, i, act)
    {
      RunFeedsFeeds(s, loaded, 0, i, act);
    }
    assert r[n + 1] == loaded[n + 1];
  }

  /** A forward pass changes signals only: every trainable layer keeps its weights and deltas. */
  lemma ForwardKeepsParameters(s: Shape, c: seq<Layer>, input: seq<real>, act: real -> real)
    requires Wellformed(s, c) && |input| >= s.inputs
    ensures var r := Forward(s, c, input, act);
            forall k :: 0 <= k < |c| && c[k].Trainable() ==>
              r[k].Trainable() && r[k].weights == c[k].weights && r[k].deltas == c[k].deltas
  {
    ForwardResult(s, c, input, act);
    var r := Forward(s, c, input, act);
    forall k | 0 <= k < |c| && c[k].Trainable()
      ensures r[k].Trainable() && r[k].weights == c[k].weights && r[k].deltas == c[k].deltas
    {
      assert LayerOk(s, k, c[k]);
      assert FedAt(r, c, k - 1, act);
    }
  }

  /** `predict(input)`: the forward pass, then a view of the Output layer's signal. */
  function Predict(s: Shape, c: seq<Layer>, input: seq<real>, act: real -> real): (r: (seq<Layer>, seq<real>))
    requires Wellformed(s, c) && |input| >= s.inputs
    ensures Wellformed(s, r.0)
    ensures FeedCompatible(c[OutputLayer(s)], r.0[OutputLayer(s) - 1].outputs)
    ensures |r.1| == |c[OutputLayer(s)].weights| == s.outputs
    ensures forall i :: 0 <= i < s.outputs ==>
              r.1[i] == act(Dot(r.0[OutputLayer(s) - 1].outputs, c[OutputLayer(s)].weights[i]))
  {
    var f := Forward(s, c, input, act);
    ForwardResult(s, c, input, act);
    assert FedAt(f, c, OutputLayer(s) - 1, act);
    assert LayerOk(s, OutputLayer(s), c[OutputLayer(s)]);
    FeedSignal(c[OutputLayer(s)], f[OutputLayer(s) - 1].outputs, act);
    (f, f[OutputLayer(s)].outputs)
  }

  /**
    Predicting twice with the same input leaves the network exactly as one
    prediction does, so repeated predictions agree and never change a weight.
  */
  lemma PredictIsIdempotent(s: Shape, c: seq<Layer>, input: seq<real>, act: real -> real)
    requires Wellformed(s, c) && |input| >= s.inputs
    ensures Predict(s, Predict(s, c, input, act).0, input, act) == Predict(s, c, input, act)
  {
    var f := Forward(s, c, input, act);
    var g := Forward(s, f, input, act);
    ForwardResult(s, c, input, act);
    ForwardResult(s, f, input, act);
    LoadInputOverwrites(c[INPUT_LAYER], input, input);
    AgreeUpTo(s, c, f, g, act, NLayers(s) - 2);
    assert g == f;
  }

  /**
    Two forward passes whose Input layers agree agree on every layer up to
    `m`: each fed layer depends only on its weights and the predecessor's
    signal.
  */
  lemma {:induction false} AgreeUpTo(s: Shape, c: seq<Layer>, f: seq<Layer>, g: seq<Layer>, act: real -> real, m: nat)
    requires |c| == |f| == |g| == NLayers(s) && m <= NLayers(s) - 2
    requires g[0] == f[0]
    requires forall i :: 0 <= i < NLayers(s) - 2 ==> FedAt(f, c, i, act)
    requires forall i :: 0 <= i < NLayers(s) - 2 ==> FedAt(g, f, i, act)
    ensures forall j :: 0 <= j <= m ==> g[j] == f[j]
  {
    if m > 0 {
      AgreeUpTo(s, c, f, g, act, m - 1);
      assert FedAt(f, c, m - 1, act) && FedAt(g, f, m - 1, act);
      FeedOverwrites(c[m], f[m - 1].outputs, g[m - 1].outputs, act);
    }
  }

  // ---------------------------------------------------------------------------
  // backprog
  // ---------------------------------------------------------------------------

  /** `r` is `l` after `tune` with neighbours `prev` and `next`. */
  predicate TunedFrom(r: Layer, l: Layer, prev: Layer, next: Layer, rate: real)
  {
    TuneCompatible(prev, l, next) && r == Tune(l, prev, next, rate)
  }

  /** Layer `l` of `r` is layer `l` of `c` tuned against `c`'s layer `l - 1` and `r`'s layer `l + 1`. */
  predicate TunedAt(r: seq<Layer>, c: seq<Layer>, l: nat, rate: real)
  {
    1 <= l && l + 1 < |r| && l < |c| && TunedFrom(r[l], c[l], c[l - 1], r[l + 1], rate)
  }

  /** One term of the backward fold: `std::get<i + 1>(layers).tune(std::get<i>(layers), std::get<i + 2>(layers), rate)`. */
  function TuneStep(s: Shape, c: seq<Layer>, i: nat, rate: real): (r: seq<Layer>)
    requires Wellformed(s, c) && i < NLayers(s) - 2
    ensures |r| == |c|
    ensures TunedFrom(r[i + 1], c[i + 1], c[i], c[i + 2], rate)
    ensures forall k :: 0 <= k < |c| && k != i + 1 ==> r[k] == c[k]
  {
    Neighbours(s, i, c[i], c[i + 1], c[i + 2]);
    c[i + 1 := Tune(c[i + 1], c[i], c[i + 2], rate)]
  }

  /** A tune step keeps the chain well formed: `tune` keeps every buffer's size and the bias slot. */
  lemma TuneStepKeepsWellformed(s: Shape, c: seq<Layer>, i: nat, rate: real)
    requires Wellformed(s, c) && i < NLayers(s) - 2
    ensures Wellformed(s, TuneStep(s, c, i, rate))
  {
    assert LayerOk(s, i, c[i]) && LayerOk(s, i + 1, c[i + 1]) && LayerOk(s, i + 2, c[i + 2]);
    TuneKeepsShape(c[i + 1], c[i], c[i + 2], rate, LayerTypeAt(s, i + 1));
    assert LayerOk(s, i + 1, TuneStep(s, c, i, rate)[i + 1]);
  }

  /** The fold `((tune step for I), ...)` over an index sequence, left to right. */
  function RunTunes(s: Shape, c: seq<Layer>, sched: seq<nat>, rate: real): (r: seq<Layer>)
    requires Wellformed(s, c)
    requires forall i :: 0 <= i < |sched| ==> sched[i] < NLayers(s) - 2
    ensures |r| == |c|
    decreases |sched|
  {
    if |sched| == 0 then c
    else
      TuneStepKeepsWellformed(s, c, sched[0], rate);
      RunTunes(s, TuneStep(s, c, sched[0], rate), sched[1..], rate)
  }

  /** The backward fold keeps the chain well formed. */
  lemma {:induction false} RunTunesKeepsWellformed(s: Shape, c: seq<Layer>, sched: seq<nat>, rate: real)
    requires Wellformed(s, c)
    requires forall i :: 0 <= i < |sched| ==> sched[i] < NLayers(s) - 2
    ensures Wellformed(s, RunTunes(s, c, sched, rate))
    decreases |sched|
  {
    if |sched| > 0 {
      TuneStepKeepsWellformed(s, c, sched[0], rate);
      RunTunesKeepsWellformed(s, TuneStep(s, c, sched[0], rate), sched[1..], rate);
    }
  }

  /** The backward fold over `t - 1, ..., 0` writes only layers `1 .. t`: layer 0 and every layer above `t` keep their state. */
  lemma {:induction false} RunTunesKeeps(s: Shape, c: seq<Layer>, t: nat, j: nat, rate: real)
    requires Wellformed(s, c) && t <= NLayers(s) - 2
    requires j == 0 || t < j < |c|
    ensures RunTunes(s, c, IndexSequenceReverse(t), rate)[j] == c[j]
    decreases t
  {
    if t > 0 {
      var c1 := TuneStep(s, c, t - 1, rate);
      TuneStepKeepsWellformed(s, c, t - 1, rate);
      IndexSequenceReverseStep(t);
      RunTunesKeeps(s, c1, t - 1, j, rate);
    }
  }

  /**
    Running the backward fold over `t - 1, ..., 0` tunes each layer `l`,
    `1 <= l <= t`, against its predecessor as it was before the fold and its
    successor as the fold leaves it, so every successor is tuned before its
    predecessor reads it.
  */
  lemma {:induction false} RunTunesTunes(s: Shape, c: seq<Layer>, t: nat, l: nat, rate: real)
    requires Wellformed(s, c) && 1 <= l <= t <= NLayers(s) - 2
    ensures TunedAt(RunTunes(s, c, IndexSequenceReverse(t), rate), c, l, rate)
    decreases t
  {
    if l == t {
      RunTunesTunesTop(s, c, t, rate);
    } else {
      var c1 := TuneStep(s, c, t - 1, rate);
      RunTunesUnfold(s, c, t, rate);
      RunTunesTunes(s, c1, t - 1, l, rate);
      assert c1[l] == c[l] && c1[l - 1] == c[l - 1];
    }
  }

  /** The first step of the backward fold over `t - 1, ..., 0` tunes layer `t`, and the rest of the fold leaves it and its successor alone. */
  lemma RunTunesTunesTop(s: Shape, c: seq<Layer>, t: nat, rate: real)
    requires Wellformed(s, c) && 1 <= t <= NLayers(s) - 2
    ensures TunedAt(RunTunes(s, c, IndexSequenceReverse(t), rate), c, t, rate)
  {
    var c1 := TuneStep(s, c, t - 1, rate);
    RunTunesUnfold(s, c, t, rate);
    RunTunesKeeps(s, c1, t - 1, t, rate);
    RunTunesKeeps(s, c1, t - 1, t + 1, rate);
  }

  /** The backward fold over `t - 1, ..., 0` is one tune step at `t - 1` followed by the fold over `t - 2, ..., 0`. */
  lemma RunTunesUnfold(s: Shape, c: seq<Layer>, t: nat, rate: real)
    requires Wellformed(s, c) && 1 <= t <= NLayers(s) - 2
    ensures Wellformed(s, TuneStep(s, c, t - 1, rate))
    ensures RunTunes(s, c, IndexSequenceReverse(t), rate)
              == RunTunes(s, TuneStep(s, c, t - 1, rate), IndexSequenceReverse(t - 1), rate)
  {
    TuneStepKeepsWellformed(s, c, t - 1, rate);
    IndexSequenceReverseStep(t);
  }

  /** The chain after the Answer layer's `load`: only the Answer layer changes, and it stays well formed. */
  function LoadAnswerLayer(s: Shape, c: seq<Layer>, answer: seq<real>): (r: seq<Layer>)
    requires Wellformed(s, c) && |answer| >= s.outputs
    ensures Wellformed(s, r) && |r| == |c|
    ensures r[AnswerLayer(s)] == Answer(answer[..s.outputs])
    ensures forall k :: 0 <= k < AnswerLayer(s) ==> r[k] == c[k]
  {
    assert LayerOk(s, AnswerLayer(s), c[AnswerLayer(s)]);
    var l := LoadAnswer(c[AnswerLayer(s)], answer);
    assert LayerOk(s, AnswerLayer(s), l);
    c[AnswerLayer(s) := l]
  }

  /** `backprog(answer, rate, makeIndexSequenceReverse<N_LAYERS - 2>)`. */
  function Backprog(s: Shape, c: seq<Layer>, answer: seq<real>, rate: real): (r: seq<Layer>)
    requires Wellformed(s, c) && |answer| >= s.outputs
    ensures Wellformed(s, r)
  {
    var loaded := LoadAnswerLayer(s, c, answer);
    RunTunesKeepsWellformed(s, loaded, IndexSequenceReverse(NLayers(s) - 2), rate);
    RunTunes(s, loaded, IndexSequenceReverse(NLayers(s) - 2), rate)
  }

  /**
    The backward schedule: the first index of the reversed sequence tunes
    OUTPUT_LAYER against ANSWER_LAYER, the last tunes layer 1 against the
    Input layer, and in between the tuned layer steps down by one.
  */
  lemma BackpropSchedule(s: Shape)
    ensures var sched := IndexSequenceReverse(NLayers(s) - 2);
            && |sched| == NLayers(s) - 2 == |s.hiddens| + 1
            && sched[0] + 1 == OutputLayer(s) && sched[0] + 2 == AnswerLayer(s)
            && sched[|sched| - 1] + 1 == 1 && sched[|sched| - 1] == INPUT_LAYER
            && (forall k :: 0 <= k < |sched| - 1 ==> sched[k + 1] + 1 == sched[k])
  {
  }

  /** `train(input, answer, rate)`. */
  function Train(s: Shape, c: seq<Layer>, input: seq<real>, answer: seq<real>, rate: real, act: real -> real): (r: seq<Layer>)
    requires Wellformed(s, c) && |input| >= s.inputs && |answer| >= s.outputs
    ensures Wellformed(s, r)
  {
    Backprog(s, Forward(s, c, input, act), answer, rate)
  }

  /**
    After `train`, with `f` the network after its forward pass: the Input
    layer and all signals are as the forward pass left them, the Answer layer
    holds the target, and every trainable layer, from the Output layer down
    to layer 1, is `f`'s layer tuned against `f`'s predecessor and its
    successor's FINAL state (already tuned in the same call).
  */
  lemma TrainResult(s: Shape, c: seq<Layer>, input: seq<real>, answer: seq<real>, rate: real, act: real -> real)
    requires Wellformed(s, c) && |input| >= s.inputs && |answer| >= s.outputs
    ensures var f := Forward(s, c, input, act);
            var r := Train(s, c, input, answer, rate, act);
            && |r| == |f| == NLayers(s)
            && r[INPUT_LAYER] == f[INPUT_LAYER]
            && r[AnswerLayer(s)] == Answer(answer[..s.outputs])
            && (forall l :: 1 <= l < NLayers(s) - 1 ==> TunedAt(r, f, l, rate))
  {
    var f := Forward(s, c, input, act);
    var loaded := LoadAnswerLayer(s, f, answer);
    RunTunesKeeps(s, loaded, NLayers(s) - 2, INPUT_LAYER, rate);
    RunTunesKeeps(s, loaded, NLayers(s) - 2, AnswerLayer(s), rate);
    var r := Train(s, c, input, answer, rate, act);
    forall l | 1 <= l < NLayers(s) - 1
      ensures TunedAt(r, f, l, rate)
    {
      RunTunesTunes(s, loaded, NLayers(s) - 2, l, rate);
    }
  }

  /**
    A Hidden layer's deltas are its successor's deltas propagated back
    through the successor's weights, times the slope at the signal `out`.
  */
  predicate HiddenDeltaLaw(l: Layer, out: seq<real>, next: Layer)
  {
    && l.Hidden? && next.Trainable()
    && |next.deltas| >= |next.weights|
    && (forall j :: 0 <= j < |next.weights| ==> |l.weights| < |next.weights[j]|)
    && |out| > |l.weights| && |l.deltas| > |l.weights|
    && forall i :: 0 <= i < |l.weights| ==> l.deltas[i] == BackError(next, i) * (out[i] * (1.0 - out[i]))
  }

  /**
    The deltas `train` leaves: the Output layer's come from the target,
    `(answer - out) * out * (1 - out)`; a Hidden layer's come from its
    successor's final deltas and weights, `sum_j d'[j] * w'[j][i]` times the
    slope; and every weight has moved by `rate * delta * input`.
  */
  lemma TrainDeltas(s: Shape, c: seq<Layer>, input: seq<real>, answer: seq<real>, rate: real, act: real -> real)
    requires Wellformed(s, c) && |input| >= s.inputs && |answer| >= s.outputs
    ensures var f := Forward(s, c, input, act);
            var r := Train(s, c, input, answer, rate, act);
            var ol := OutputLayer(s);
            && |r| == NLayers(s)
            && OutputDeltaLaw(r[ol], f[ol].outputs, answer)
            && (forall l :: 1 <= l < ol ==> HiddenDeltaLaw(r[l], f[l].outputs, r[l + 1]))
  {
    TrainResult(s, c, input, answer, rate, act);
    var f := Forward(s, c, input, act);
    var r := Train(s, c, input, answer, rate, act);
    var ol := OutputLayer(s);
    assert TunedAt(r, f, ol, rate);
    assert f[ol].Output?;
    TunedOutput(r[ol], f[ol], f[ol - 1], r[ol + 1], rate, answer);
    forall l | 1 <= l < ol
      ensures HiddenDeltaLaw(r[l], f[l].outputs, r[l + 1])
    {
      assert TunedAt(r, f, l, rate);
      assert LayerOk(s, l, f[l]);
      TunedHidden(r[l], f[l], f[l - 1], r[l + 1], rate);
    }
  }

  /** The Output layer's deltas are the target error times the slope at the signal `out`. */
  predicate OutputDeltaLaw(l: Layer, out: seq<real>, target: seq<real>)
  {
    && l.Trainable()
    && |l.deltas| == |out| <= |target|
    && forall i :: 0 <= i < |out| ==> l.deltas[i] == (target[i] - out[i]) * (out[i] * (1.0 - out[i]))
  }

  /** The Output layer after `tune` obeys the delta law against the target its Answer layer holds. */
  lemma TunedOutput(r: Layer, l: Layer, prev: Layer, next: Layer, rate: real, answer: seq<real>)
    requires TunedFrom(r, l, prev, next, rate) && l.Output?
    requires |answer| >= |next.outputs| && next.outputs == answer[..|next.outputs|]
    ensures OutputDeltaLaw(r, l.outputs, answer)
  {
    TuneDeltas(l, prev, next, rate);
    forall i | 0 <= i < |l.outputs|
      ensures r.deltas[i] == (answer[i] - l.outputs[i]) * (l.outputs[i] * (1.0 - l.outputs[i]))
    {
      assert next.outputs[i] == answer[i];
    }
  }

  /** A Hidden layer after `tune` obeys the delta law against the successor it was tuned with. */
  lemma TunedHidden(r: Layer, l: Layer, prev: Layer, next: Layer, rate: real)
    requires TunedFrom(r, l, prev, next, rate) && l.Hidden?
    ensures HiddenDeltaLaw(r, l.outputs, next)
  {
    TuneDeltas(l, prev, next, rate);
  }
}
