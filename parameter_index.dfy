/**
  The numbering of the network's trainable parameters.

  A layer descriptor `desc` lists the number of neurons of every layer, input
  layer first.  Every layer after the first has, for each of its neurons, one
  weight per neuron of the previous layer and one bias.  Each parameter owns
  one tracked variable of the dual numbers: the weights come first, layer by
  layer, neuron by neuron, input by input; the biases follow, layer by layer,
  neuron by neuron.  `Index` is that numbering; `Locate` is its inverse.
*/
module ParameterIndex {

  /** The network is built only from layers with at least one neuron. */
  predicate PositiveSizes(desc: seq<nat>) {
    forall l :: 0 <= l < |desc| ==> desc[l] > 0
  }

  /** The number of layers that carry weights and biases (all but the input layer). */
  function Layers(desc: seq<nat>): nat {
    if |desc| == 0 then 0 else |desc| - 1
  }

  /** The number of weights in the layers before layer `x` (layer 0 is the first weighted layer). */
  function WeightsBefore(desc: seq<nat>, x: nat): nat
    requires x <= Layers(desc)
  {
    if x == 0 then 0 else WeightsBefore(desc, x - 1) + desc[x - 1] * desc[x]
  }

  /** The number of biases in the layers before layer `x`. */
  function BiasesBefore(desc: seq<nat>, x: nat): nat
    requires x <= Layers(desc)
  {
    if x == 0 then 0 else BiasesBefore(desc, x - 1) + desc[x]
  }

  /** Sum over the weighted layers of (previous size) * (size). */
  function NumWeights(desc: seq<nat>): nat {
    WeightsBefore(desc, Layers(desc))
  }

  /** Sum over the weighted layers of their sizes. */
  function NumBiases(desc: seq<nat>): nat {
    BiasesBefore(desc, Layers(desc))
  }

  /** The number of tracked variables: the length of every gradient. */
  function NumVars(desc: seq<nat>): nat {
    NumWeights(desc) + NumBiases(desc)
  }

  /**
    A trainable parameter: weight `input` of neuron `neuron` of weighted layer
    `layer`, or the bias of that neuron.
  */
  datatype Param = Weight(layer: nat, neuron: nat, input: nat) | Bias(layer: nat, neuron: nat)

  predicate IsParam(desc: seq<nat>, p: Param) {
    p.layer < Layers(desc) && p.neuron < desc[p.layer + 1] &&
    (p.Weight? ==> p.input < desc[p.layer])
  }

  lemma WeightsBeforeMonotone(desc: seq<nat>, x: nat, x': nat)
    requires x <= x' <= Layers(desc)
    ensures WeightsBefore(desc, x) <= WeightsBefore(desc, x')
    decreases x' - x
  {
    if x < x' {
      WeightsBeforeMonotone(desc, x, x' - 1);
    }
  }

  lemma BiasesBeforeMonotone(desc: seq<nat>, x: nat, x': nat)
    requires x <= x' <= Layers(desc)
    ensures BiasesBefore(desc, x) <= BiasesBefore(desc, x')
    decreases x' - x
  {
    if x < x' {
      BiasesBeforeMonotone(desc, x, x' - 1);
    }
  }

  /** Slot `y * d + z` of an `n`-by-`d` block lies inside the block. */
  lemma SlotInBlock(y: nat, z: nat, n: nat, d: nat)
    requires y < n && z < d
    ensures y * d + z < n * d
  {
    assert (y + 1) * d <= n * d by {
      MulMonotone(y + 1, n, d);
    }
  }

  lemma MulMonotone(a: nat, b: nat, d: nat)
    requires a <= b
    ensures a * d <= b * d
  {
  }

  /** The slot of a block is determined by its row and column. */
  lemma SlotUnique(y: nat, z: nat, y': nat, z': nat, d: nat)
    requires z < d && z' < d && y * d + z == y' * d + z'
    ensures y == y' && z == z'
  {
    if y < y' {
      MulMonotone(y + 1, y', d);
      assert false;
    } else if y' < y {
      MulMonotone(y' + 1, y, d);
      assert false;
    }
  }

  /** Weight `z` of neuron `y` lies inside the block of layer `x`. */
  lemma WeightSlot(desc: seq<nat>, x: nat, y: nat, z: nat)
    requires x < Layers(desc) && y < desc[x + 1] && z < desc[x]
    ensures 0 <= y * desc[x]
    ensures WeightsBefore(desc, x) + y * desc[x] + z < WeightsBefore(desc, x + 1)
  {
    SlotInBlock(y, z, desc[x + 1], desc[x]);
  }

  /** The global index of a parameter; weights fill [0, NumWeights), biases [NumWeights, NumVars). */
  function Index(desc: seq<nat>, p: Param): (i: nat)
    requires IsParam(desc, p)
    ensures p.Weight? ==> WeightsBefore(desc, p.layer) <= i < WeightsBefore(desc, p.layer + 1)
    ensures p.Weight? ==> i < NumWeights(desc)
    ensures p.Bias? ==> NumWeights(desc) + BiasesBefore(desc, p.layer) <= i < NumWeights(desc) + BiasesBefore(desc, p.layer + 1)
    ensures p.Bias? ==> NumWeights(desc) <= i < NumVars(desc)
  {
    WeightsBeforeMonotone(desc, p.layer + 1, Layers(desc));
    BiasesBeforeMonotone(desc, p.layer + 1, Layers(desc));
    match p
    case Weight(x, y, z) =>
      WeightSlot(desc, x, y, z);
      WeightsBefore(desc, x) + y * desc[x] + z
    case Bias(x, y) =>
      NumWeights(desc) + BiasesBefore(desc, x) + y
  }

  /** Distinct parameters have distinct indices. */
  lemma IndexInjective(desc: seq<nat>, p: Param, q: Param)
    requires IsParam(desc, p) && IsParam(desc, q) && Index(desc, p) == Index(desc, q)
    ensures p == q
  {
    if p.layer < q.layer {
      WeightsBeforeMonotone(desc, p.layer + 1, q.layer);
      BiasesBeforeMonotone(desc, p.layer + 1, q.layer);
      assert false;
    } else if q.layer < p.layer {
      WeightsBeforeMonotone(desc, q.layer + 1, p.layer);
      BiasesBeforeMonotone(desc, q.layer + 1, p.layer);
      assert false;
    } else if p.Weight? && q.Weight? {
      SlotUnique(p.neuron, p.input, q.neuron, q.input, desc[p.layer]);
    }
  }

  /** The weight with index `i`, searching the weighted layers from `x` down. */
  function LocateWeight(desc: seq<nat>, i: nat, x: nat): (p: Param)
    requires PositiveSizes(desc) && x < Layers(desc) && i < WeightsBefore(desc, x + 1)
    ensures p.Weight? && IsParam(desc, p) && Index(desc, p) == i
  {
    if i < WeightsBefore(desc, x) then
      LocateWeight(desc, i, x - 1)
    else
      var r := i - WeightsBefore(desc, x);
      DivisionInBlock(r, desc[x + 1], desc[x]);
      Weight(x, r / desc[x], r % desc[x])
  }

  /** An offset inside an `n`-by-`d` block splits into row `r / d` < n and column `r % d`. */
  lemma DivisionInBlock(r: nat, n: nat, d: nat)
    requires d > 0 && r < d * n
    ensures r / d < n && (r / d) * d + r % d == r
  {
    if r / d >= n {
      MulMonotone(n, r / d, d);
      assert false;
    }
  }

  /** The bias with index `i`, searching the weighted layers from `x` down. */
  function LocateBias(desc: seq<nat>, i: nat, x: nat): (p: Param)
    requires x < Layers(desc) && NumWeights(desc) <= i < NumWeights(desc) + BiasesBefore(desc, x + 1)
    ensures p.Bias? && IsParam(desc, p) && Index(desc, p) == i
  {
    if i < NumWeights(desc) + BiasesBefore(desc, x) then
      LocateBias(desc, i, x - 1)
    else
      Bias(x, i - NumWeights(desc) - BiasesBefore(desc, x))
  }

  /** The parameter that owns tracked variable `i`: every index belongs to a parameter. */
  function Locate(desc: seq<nat>, i: nat): (p: Param)
    requires PositiveSizes(desc) && i < NumVars(desc)
    ensures IsParam(desc, p) && Index(desc, p) == i
    ensures p.Weight? <==> i < NumWeights(desc)
  {
    if i < NumWeights(desc) then
      LocateWeight(desc, i, Layers(desc) - 1)
    else
      LocateBias(desc, i, Layers(desc) - 1)
  }

  /** `Locate` undoes `Index`: the numbering is a bijection onto [0, NumVars). */
  lemma LocateIndex(desc: seq<nat>, p: Param)
    requires PositiveSizes(desc) && IsParam(desc, p)
    ensures Index(desc, p) < NumVars(desc) && Locate(desc, Index(desc, p)) == p
  {
    IndexInjective(desc, p, Locate(desc, Index(desc, p)));
  }

  /** After the last neuron of layer `x`, the weight counter reaches the start of layer x + 1. */
  lemma LayerWeightsEnd(desc: seq<nat>, x: nat)
    requires x < Layers(desc)
    ensures WeightsBefore(desc, x) + desc[x + 1] * desc[x] == WeightsBefore(desc, x + 1)
  {
  }
}
