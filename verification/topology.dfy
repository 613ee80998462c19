/**
  The compile-time topology of mlp.hpp: `MakePerceptronLayers` zips the tag
  lists `HIDDEN<INPUTS>, HIDDEN<H1>, ..., HIDDEN<Hn>` and
  `HIDDEN<H1>, ..., HIDDEN<Hn>, OUTPUT<OUTPUTS>` into trainable layers,
  `JoinLayers` brackets them with an Input and an Answer layer, and the
  network derives its distinguished layer indices and its index sequences
  from the number of hidden widths.
*/
module Topology {

  /** `MLP<float, INPUT<inputs>, HIDDEN<hiddens...>, OUTPUT<outputs>>`. */
  datatype Shape = Shape(inputs: nat, hiddens: seq<nat>, outputs: nat)

  /** A width together with the template tag it is wrapped in. */
  datatype Tag = HiddenTag(width: nat) | OutputTag(width: nat)

  /** The four specialisations of `Layer`, with the widths they are instantiated at. */
  datatype LayerType =
    | InputType(width: nat)                    // Layer<float, INPUT<width>>
    | HiddenType(inputs: nat, outputs: nat)    // Layer<float, HIDDEN<inputs>, HIDDEN<outputs>>
    | OutputType(inputs: nat, outputs: nat)    // Layer<float, HIDDEN<inputs>, OUTPUT<outputs>>
    | AnswerType(width: nat)                   // Layer<float, OUTPUT<width>>
  {
    /** The number of values this layer presents to its successor (bias slot not counted). */
    function Width(): nat
    {
      match this
      case InputType(w) => w
      case HiddenType(_, o) => o
      case OutputType(_, o) => o
      case AnswerType(w) => w
    }

    predicate Trainable()
    {
      HiddenType? || OutputType?
    }
  }

  const INPUT_LAYER: nat := 0

  function OutputLayer(s: Shape): nat
  {
    1 + |s.hiddens|
  }

  function AnswerLayer(s: Shape): nat
  {
    1 + |s.hiddens| + 1
  }

  function NLayers(s: Shape): nat
  {
    1 + |s.hiddens| + 1 + 1
  }

  /** The width list `[INPUTS, H1, ..., Hn, OUTPUTS]`. */
  function Widths(s: Shape): seq<nat>
  {
    [s.inputs] + s.hiddens + [s.outputs]
  }

  function HiddenTags(ws: seq<nat>): (r: seq<Tag>)
    ensures |r| == |ws|
    ensures forall k :: 0 <= k < |ws| ==> r[k] == HiddenTag(ws[k])
  {
    seq(|ws|, k requires 0 <= k < |ws| => HiddenTag(ws[k]))
  }

  /** Which partial specialisation `Layer<float, A, B>` selects for one pair of tags. */
  function Specialise(a: Tag, b: Tag): LayerType
    requires a.HiddenTag?
  {
    match b
    case HiddenTag(o) => HiddenType(a.width, o)
    case OutputTag(o) => OutputType(a.width, o)
  }

  /** `std::tuple<Layer<float, As, Bs>...>`: the pack expansion zips the two tag lists. */
  function MakePerceptronLayers(ins: seq<Tag>, outs: seq<Tag>): (r: seq<LayerType>)
    requires |ins| == |outs|
    requires forall k :: 0 <= k < |ins| ==> ins[k].HiddenTag?
    ensures |r| == |ins|
  {
    seq(|ins|, k requires 0 <= k < |ins| => Specialise(ins[k], outs[k]))
  }

  /** `std::tuple<INPUT_LAYER, PERCEPTRONS_LAYERS..., ANSWER_LAYER>`. */
  function JoinLayers(input: LayerType, perceptrons: seq<LayerType>, answer: LayerType): seq<LayerType>
  {
    [input] + perceptrons + [answer]
  }

  /** The `Layers` tuple type of an `MLP` of the given shape. */
  function Build(s: Shape): (r: seq<LayerType>)
    ensures |r| == |s.hiddens| + 3
    ensures r[0] == InputType(s.inputs) && r[|r| - 1] == AnswerType(s.outputs)
  {
    var ins := [HiddenTag(s.inputs)] + HiddenTags(s.hiddens);
    var outs := HiddenTags(s.hiddens) + [OutputTag(s.outputs)];
    JoinLayers(InputType(s.inputs), MakePerceptronLayers(ins, outs), AnswerType(s.outputs))
  }

  /** Entry `k` of the width list `[INPUTS, H1, ..., Hn, OUTPUTS]`, read without building the list. */
  function WidthAt(s: Shape, k: nat): nat
    requires k <= |s.hiddens| + 1
  {
    if k == 0 then s.inputs else if k <= |s.hiddens| then s.hiddens[k - 1] else s.outputs
  }

  /**
    The layer at position `k` of the chain, stated case by case: the Input
    layer first, a Hidden layer between consecutive widths at positions
    `1 .. |H|`, the Output layer at OUTPUT_LAYER, the Answer layer last.
  */
  function LayerTypeAt(s: Shape, k: nat): LayerType
    requires k < NLayers(s)
  {
    if k == INPUT_LAYER then InputType(s.inputs)
    else if k < OutputLayer(s) then HiddenType(WidthAt(s, k - 1), WidthAt(s, k))
    else if k == OutputLayer(s) then OutputType(WidthAt(s, k - 1), s.outputs)
    else AnswerType(s.outputs)
  }

  /**
    The tuple type `Build` assembles by zipping the tag lists is, position by
    position, the case-by-case chain `LayerTypeAt`: N_LAYERS = |H| + 3
    layers, the Output layer at OUTPUT_LAYER = |H| + 1 and the Answer layer
    at ANSWER_LAYER = |H| + 2.
  */
  lemma BuildShape(s: Shape)
    ensures |Build(s)| == NLayers(s)
    ensures OutputLayer(s) + 1 == AnswerLayer(s) == NLayers(s) - 1
    ensures forall k :: 0 <= k < NLayers(s) ==> Build(s)[k] == LayerTypeAt(s, k)
  {
    var t := Build(s);
    var n := |s.hiddens|;
    var ins := [HiddenTag(s.inputs)] + HiddenTags(s.hiddens);
    var outs := HiddenTags(s.hiddens) + [OutputTag(s.outputs)];
    forall k | 1 <= k <= n + 1
      ensures t[k] == LayerTypeAt(s, k)
    {
      assert t[k] == Specialise(ins[k - 1], outs[k - 1]);
      assert ins[k - 1] == HiddenTag(WidthAt(s, k - 1));
    }
  }

  /**
    Consecutive layers of the chain fit together: every trainable layer's
    input width is its predecessor's width, and the Answer layer is as wide
    as the Output layer.
  */
  lemma ChainFitsTogether(s: Shape)
    ensures forall k :: 0 <= k < NLayers(s) ==> (LayerTypeAt(s, k).Trainable() <==> 1 <= k < NLayers(s) - 1)
    ensures forall k :: 1 <= k < NLayers(s) - 1 ==> LayerTypeAt(s, k).inputs == LayerTypeAt(s, k - 1).Width()
    ensures LayerTypeAt(s, AnswerLayer(s)).Width() == LayerTypeAt(s, OutputLayer(s)).Width()
  {
  }

  /** With no hidden widths the builder yields the single trainable layer Input -> Output. */
  lemma BuildWithoutHidden(inputs: nat, outputs: nat)
    ensures Build(Shape(inputs, [], outputs)) == [InputType(inputs), OutputType(inputs, outputs), AnswerType(outputs)]
  {
    var s := Shape(inputs, [], outputs);
    BuildShape(s);
    assert LayerTypeAt(s, 1) == OutputType(inputs, outputs);
  }

  /** `std::make_index_sequence<n>`. */
  function MakeIndexSequence(n: nat): (r: seq<nat>)
    ensures |r| == n
  {
    seq(n, k => k)
  }

  /** `makeIndexSequenceReverse<n>`: the pack `sizeof...(Is) - 1 - Is...` over `make_index_sequence<n>`. */
  function IndexSequenceReverse(n: nat): (r: seq<nat>)
    ensures |r| == n
  {
    seq(n, k requires 0 <= k < n => n - 1 - k)
  }

  /** A nonempty reversed index sequence starts at `n - 1` and continues with the one for `n - 1`. */
  lemma IndexSequenceReverseStep(n: nat)
    requires n > 0
    ensures IndexSequenceReverse(n)[0] == n - 1
    ensures IndexSequenceReverse(n)[1..] == IndexSequenceReverse(n - 1)
  {
  }

  function Reverse<T>(s: seq<T>): (r: seq<T>)
    ensures |r| == |s|
  {
    if |s| == 0 then [] else Reverse(s[1..]) + [s[0]]
  }

  /** The reversed index sequence is the plain one read backwards. */
  lemma {:induction false} IndexSequenceReverseIsReverse(n: nat)
    ensures IndexSequenceReverse(n) == Reverse(MakeIndexSequence(n))
  {
    if n > 0 {
      var prefix := MakeIndexSequence(n - 1);
      var last: nat := n - 1;
      IndexSequenceReverseIsReverse(n - 1);
      assert MakeIndexSequence(n) == prefix + [last];
      ReverseSnoc<nat>(prefix, last);
      assert IndexSequenceReverse(n) == [last] + IndexSequenceReverse(n - 1);
    }
  }

  /**
    The reversed index sequence maps position `k` to `n - 1 - k`: it lists
    every index below `n` exactly once, in strictly decreasing order.
  */
  lemma IndexSequenceReverseOrder(n: nat)
    ensures forall k :: 0 <= k < n ==> IndexSequenceReverse(n)[k] == MakeIndexSequence(n)[n - 1 - k]
    ensures forall i, j :: 0 <= i < j < n ==> IndexSequenceReverse(n)[i] > IndexSequenceReverse(n)[j]
    ensures multiset(IndexSequenceReverse(n)) == multiset(MakeIndexSequence(n))
  {
    IndexSequenceReverseIsReverse(n);
    ReverseMultiset(MakeIndexSequence(n));
  }

  lemma {:induction false} ReverseSnoc<T>(s: seq<T>, x: T)
    ensures Reverse(s + [x]) == [x] + Reverse(s)
  {
    if |s| > 0 {
      assert (s + [x])[1..] == s[1..] + [x];
      ReverseSnoc(s[1..], x);
    }
  }

  lemma {:induction false} ReverseMultiset<T>(s: seq<T>)
    ensures multiset(Reverse(s)) == multiset(s)
  {
    if |s| > 0 {
      ReverseMultiset(s[1..]);
      assert s == [s[0]] + s[1..];
    }
  }
}
