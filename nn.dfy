/**
  The `NN` network object: its parameters and neuron values are fields that
  the constructor builds and the methods update in place.  Each method is
  proved to leave the fields equal to the corresponding function of module
  Network applied to the old state.
*/
module NeuralNet {
  import opened DualNumbers
  import opened DualOperators
  import opened ParameterIndex
  import opened Network

  /** Which dimension check made training stop before its first epoch. */
  datatype Mismatch = InputSizeMismatch | OutputSizeMismatch

  /** The outcome of `train`: the last epoch's average cost, or the failed check. */
  datatype TrainResult = Trained(cost: real) | Aborted(reason: Mismatch)

  /**
    The weights of weighted layer `x` as the constructor draws them: one
    vector per neuron, one entry per neuron of the previous layer.
  */
  function LayerWeights(desc: seq<nat>, init: (nat, nat, nat) -> real, x: nat): (r: seq<seq<real>>)
    requires x < Layers(desc)
    ensures |r| == desc[x + 1]
    ensures forall y :: 0 <= y < |r| ==> |r[y]| == desc[x] && forall z :: 0 <= z < desc[x] ==> r[y][z] == init(x, y, z)
  {
    seq(desc[x + 1], y requires 0 <= y => seq(desc[x], z requires 0 <= z => init(x, y, z)))
  }

  /** The biases of weighted layer `x` as the constructor draws them. */
  function LayerBiases(desc: seq<nat>, init: (nat, nat) -> real, x: nat): (r: seq<real>)
    requires x < Layers(desc)
    ensures |r| == desc[x + 1] && forall y :: 0 <= y < |r| ==> r[y] == init(x, y)
  {
    seq(desc[x + 1], y requires 0 <= y => init(x, y))
  }

  /** The weights of the first `count` weighted layers, appended one layer at a time. */
  function InitialWeights(desc: seq<nat>, init: (nat, nat, nat) -> real, count: nat): (r: Weights)
    requires count <= Layers(desc)
    ensures |r| == count && forall x :: 0 <= x < count ==> r[x] == LayerWeights(desc, init, x)
  {
    if count == 0 then [] else InitialWeights(desc, init, count - 1) + [LayerWeights(desc, init, count - 1)]
  }

  /** The biases of the first `count` weighted layers, appended one layer at a time. */
  function InitialBiases(desc: seq<nat>, init: (nat, nat) -> real, count: nat): (r: Biases)
    requires count <= Layers(desc)
    ensures |r| == count && forall x :: 0 <= x < count ==> r[x] == LayerBiases(desc, init, x)
  {
    if count == 0 then [] else InitialBiases(desc, init, count - 1) + [LayerBiases(desc, init, count - 1)]
  }

  /** The initial parameters have the shape the descriptor prescribes. */
  lemma InitialShaped(desc: seq<nat>, weightInit: (nat, nat, nat) -> real, biasInit: (nat, nat) -> real)
    ensures Shaped(desc, InitialWeights(desc, weightInit, Layers(desc)), InitialBiases(desc, biasInit, Layers(desc)))
  {
  }

  /** Moving from one row of a block to the next advances the offset by one row. */
  lemma NextRow(base: nat, y: nat, d: nat)
    ensures base + y * d + d == base + (y + 1) * d
  {
  }

  /** A freshly sized layer: `size` default-constructed dual numbers. */
  function EmptyLayer(size: nat): (r: seq<DualNumber>)
    ensures |r| == size && forall u :: 0 <= u < size ==> r[u] == Empty()
  {
    seq(size, u => Empty())
  }

  /** Storing a well-formed dual number in one neuron keeps every layer well formed. */
  lemma SetNeuron(desc: seq<nat>, vals: Values, n: nat, k: nat, u: nat, d: DualNumber)
    requires ValuesShaped(desc, vals, n) && k < |vals| && u < |vals[k]| && d.Valid() && d.numVariables == n
    ensures ValuesShaped(desc, vals[k := vals[k][u := d]], n)
  {
  }

  /**
    Replacing the real parts of layer `k` keeps every layer well formed and
    keeps the partials equal to those of `orig`.
  */
  lemma SetRealParts(vals: Values, orig: Values, k: nat, r: seq<real>)
    requires SameDuals(vals, orig) && k < |vals| && |r| == |vals[k]|
    ensures SameDuals(vals[k := WithRealParts(vals[k], r)], orig)
    ensures forall desc, n :: ValuesShaped(desc, vals, n) ==> ValuesShaped(desc, vals[k := WithRealParts(vals[k], r)], n)
  {
  }

  /** A layer of `size` neurons, each the zero constant over `n` variables. */
  function ZeroLayer(n: nat, size: nat): (r: seq<DualNumber>)
    ensures |r| == size && Uniform(r, n)
    ensures forall u :: 0 <= u < size ==> r[u] == Constant(n) && r[u].IsConstant() && r[u].value == 0.0
  {
    seq(size, u => Constant(n))
  }

  /** Every neuron of every layer holds the zero constant over `n` variables. */
  function ZeroValues(desc: seq<nat>, n: nat): (r: Values)
    ensures ValuesShaped(desc, r, n)
    ensures forall k :: 0 <= k < |desc| ==> r[k] == ZeroLayer(n, desc[k])
  {
    seq(|desc|, k requires 0 <= k < |desc| => ZeroLayer(n, desc[k]))
  }

  /**
    The layer loop of the `NN` constructor: one vector of default values per
    layer, and for every layer after the first its drawn biases and weights,
    with the running counts of weights and biases.
  */
  method BuildLayers(desc: seq<nat>, weightInit: (nat, nat, nat) -> real, biasInit: (nat, nat) -> real)
    returns (ws: Weights, bs: Biases, vs: Values, nw: nat, nb: nat)
    requires PositiveSizes(desc)
    ensures ws == InitialWeights(desc, weightInit, Layers(desc))
    ensures bs == InitialBiases(desc, biasInit, Layers(desc))
    ensures |vs| == |desc| && forall k :: 0 <= k < |desc| ==> vs[k] == EmptyLayer(desc[k])
    ensures nw == NumWeights(desc) && nb == NumBiases(desc)
  {
      var px: nat := 0;
      nw, nb := 0, 0;
      ws, bs, vs := [], [], [];
      for l := 0 to |desc|
        invariant |vs| == l && forall k :: 0 <= k < l ==> vs[k] == EmptyLayer(desc[k])
        invariant px == (if l == 0 then 0 else desc[l - 1])
        invariant |ws| == (if l == 0 then 0 else l - 1)
        invariant ws == InitialWeights(desc, weightInit, |ws|)
        invariant bs == InitialBiases(desc, biasInit, |ws|)
        invariant nw == WeightsBefore(desc, |ws|) && nb == BiasesBefore(desc, |ws|)
      {
        vs := vs + [EmptyLayer(desc[l])];
        if px != 0 {
          ws, bs, nw, nb := AppendLayer(desc, weightInit, biasInit, ws, bs, nw, nb, px);
        }
        px := desc[l];
      }
  }

  /**
    One pass of the constructor's layer loop after the first: the biases and
    weights of the next layer are drawn and appended, and the counts grow by
    the layer's size and by `px` (the previous layer's size) times it.
  */
  method AppendLayer(desc: seq<nat>, weightInit: (nat, nat, nat) -> real, biasInit: (nat, nat) -> real,
                     ws: Weights, bs: Biases, nw: nat, nb: nat, px: nat)
    returns (ws': Weights, bs': Biases, nw': nat, nb': nat)
    requires |ws| < Layers(desc) && px == desc[|ws|]
    requires ws == InitialWeights(desc, weightInit, |ws|) && bs == InitialBiases(desc, biasInit, |ws|)
    requires nw == WeightsBefore(desc, |ws|) && nb == BiasesBefore(desc, |ws|)
    ensures |ws'| == |ws| + 1
    ensures ws' == InitialWeights(desc, weightInit, |ws'|) && bs' == InitialBiases(desc, biasInit, |ws'|)
    ensures nw' == WeightsBefore(desc, |ws'|) && nb' == BiasesBefore(desc, |ws'|)
  {
    var x := |ws|;
    bs' := bs + [LayerBiases(desc, biasInit, x)];
    ws' := ws + [LayerWeights(desc, weightInit, x)];
    nw' := nw + px * desc[x + 1];
    nb' := nb + desc[x + 1];
  }

  /**
    The cost loop of `forwardDual`: the sum over the targets `outp` of the
    squared difference between target and output neuron, each term divided
    by the size of the output layer `out`.
  */
  method OutputCost(m: Libm, n: nat, outp: seq<real>, out: seq<DualNumber>) returns (c: DualNumber)
    requires |outp| <= |out| && |out| > 0 && Uniform(out, n)
    ensures c.Valid() && c.numVariables == n
    ensures c == Cost(m, n, outp, out, |outp|)
  {
    c := NewConstant(n);
    for k := 0 to |outp|
      invariant c == Cost(m, n, outp, out, k)
    {
      c := AddCostTerm(m, n, outp, out, k, c);
    }
  }

  /**
    One pass of the cost loop: the running cost `c` over the first `k`
    targets plus (target k - output k)^2 divided by the output layer size.
  */
  method AddCostTerm(m: Libm, n: nat, outp: seq<real>, out: seq<DualNumber>, k: nat, c: DualNumber) returns (c': DualNumber)
    requires k < |outp| <= |out| && Uniform(out, n)
    requires c == Cost(m, n, outp, out, k)
    ensures c' == Cost(m, n, outp, out, k + 1)
  {
    var target := NewConstant(n, outp[k]);
    var err := Sub(target, out[k]);
    var square := Pow(m, err, 2.0);
    var count := NewConstant(n, |out| as real);
    var term := Div(square, count);
    c' := Add(c, term);
  }

  class NN {
    /** The layer descriptor the network was built from (not stored by the original object). */
    ghost var desc: seq<nat>
    /** The scalar math functions the dual-number operators call. */
    const libm: Libm
    var weights: Weights
    var biases: Biases
    var vals: Values
    var numWeights: nat
    var numBiases: nat
    var numVars: nat

    ghost predicate Valid()
      reads this
    {
      PositiveSizes(desc) && Shaped(desc, weights, biases) && ValuesShaped(desc, vals, numVars) &&
      numWeights == NumWeights(desc) && numBiases == NumBiases(desc) && numVars == numWeights + numBiases
    }

    /** The parameters and neuron values as one value. */
    function State(): Net
      reads this
    {
      Net(weights, biases, vals)
    }

    /**
      Builds a network with one layer per entry of `desc`.  Initial weights
      and biases, drawn at random by the original, are given by `weightInit`
      and `biasInit` at (layer, neuron, input) and (layer, neuron).  Every
      neuron value starts as the zero constant over all tracked variables.
    */
    constructor (desc: seq<nat>, libm: Libm, weightInit: (nat, nat, nat) -> real, biasInit: (nat, nat) -> real)
      requires PositiveSizes(desc)
      ensures Valid() && this.desc == desc && this.libm == libm
      ensures weights == InitialWeights(desc, weightInit, Layers(desc))
      ensures biases == InitialBiases(desc, biasInit, Layers(desc))
      ensures vals == ZeroValues(desc, NumVars(desc))
    {
      var ws, bs, vs, nw, nb := BuildLayers(desc, weightInit, biasInit);
      InitialShaped(desc, weightInit, biasInit);
      this.desc, this.libm := desc, libm;
      weights, biases, vals := ws, bs, vs;
      numWeights, numBiases, numVars := nw, nb, nw + nb;
      new;
      ClearValues();
      assert weights == ws && biases == bs && numVars == NumVars(desc);
    }

    /**
      The constructor's last step: every neuron of every layer becomes the
      zero constant over all tracked variables.
    */
    method ClearValues()
      requires |vals| == |desc| && forall k :: 0 <= k < |vals| ==> |vals[k]| == desc[k]
      modifies this`vals
      ensures vals == ZeroValues(desc, numVars)
    {
      for k := 0 to |vals|
        invariant |vals| == |desc| && forall k' :: k <= k' < |vals| ==> |vals[k']| == desc[k']
        invariant forall k' :: 0 <= k' < k ==> vals[k'] == ZeroLayer(numVars, desc[k'])
      {
        for u := 0 to |vals[k]|
          invariant |vals| == |desc| && forall k' :: k <= k' < |vals| ==> |vals[k']| == desc[k']
          invariant forall k' :: 0 <= k' < k ==> vals[k'] == ZeroLayer(numVars, desc[k'])
          invariant forall u' :: 0 <= u' < u ==> vals[k][u'] == Constant(numVars)
        {
          var d := NewConstant(numVars);
          vals := vals[k := vals[k][u := d]];
        }
        assert vals[k] == ZeroLayer(numVars, desc[k]);
      }
      assert vals == ZeroValues(desc, numVars);
    }

    /**
      `forwardDual`: loads `inp` into the input layer as constants, computes
      every later layer with each weight and bias seeded as its own tracked
      variable, and returns the cost against `outp` with its gradient.  The
      neuron values it leaves and the cost it returns are SampleVals and
      SampleCost of the old state; the parameters are not changed.
    */
    method ForwardDual(inp: seq<real>, outp: seq<real>) returns (c: DualNumber)
      requires Valid() && |desc| > 0 && |inp| <= desc[0] && |outp| <= OutputSize(desc)
      modifies this`vals
      ensures Valid()
      ensures vals == SampleVals(libm, desc, old(State()), inp)
      ensures c == SampleCost(libm, desc, old(State()), inp, outp)
    {
      ghost var net := State();
      assert NetShaped(desc, net);
      LoadInput(inp);
      assert vals[0] == LoadInputs(net.vals[0], inp, NumVars(desc));
      FeedForward();
      assert vals == SampleVals(libm, desc, net, inp);
      c := OutputCost(libm, numVars, outp, vals[|vals| - 1]);
    }

    /**
      The layer loop of `forwardDual`: every weighted layer in turn, from the
      input layer as it stands, with the weight counter starting at 0 and the
      bias counter at the number of weights.
    */
    method FeedForward()
      requires Valid() && |desc| > 0
      modifies this`vals
      ensures Valid()
      ensures vals == DualPass(libm, desc, weights, biases, old(vals)[0], Layers(desc))
    {
      var weightIndex := 0;
      var biasIndex := numWeights;
      ghost var layer0 := vals[0];
      for x := 0 to |weights|
        invariant Valid()
        invariant vals[..x + 1] == DualPass(libm, desc, weights, biases, layer0, x)
        invariant weightIndex == WeightsBefore(desc, x) && biasIndex == numWeights + BiasesBefore(desc, x)
      {
        weightIndex, biasIndex := FeedLayer(x, weightIndex, biasIndex);
        assert vals[..x + 2] == vals[..x + 1] + [vals[x + 1]];
      }
      assert vals == vals[..|weights| + 1];
    }

    /** The input loop of `forwardDual`: the first |inp| input neurons become constants. */
    method LoadInput(inp: seq<real>)
      requires Valid() && |desc| > 0 && |inp| <= desc[0]
      modifies this`vals
      ensures Valid()
      ensures vals == old(vals)[0 := LoadInputs(old(vals)[0], inp, numVars)]
    {
      ghost var first := vals[0];
      for j := 0 to |inp|
        invariant ValuesShaped(desc, vals, numVars)
        invariant forall k :: 1 <= k < |vals| ==> vals[k] == old(vals)[k]
        invariant forall j' :: 0 <= j' < j ==> vals[0][j'] == Constant(numVars, inp[j'])
        invariant forall j' :: j <= j' < desc[0] ==> vals[0][j'] == first[j']
      {
        var d := NewConstant(numVars, inp[j]);
        SetNeuron(desc, vals, numVars, 0, j, d);
        vals := vals[0 := vals[0][j := d]];
      }
      assert vals[0] == LoadInputs(first, inp, numVars);
      assert vals == old(vals)[0 := LoadInputs(first, inp, numVars)];
    }

    /**
      One pass of the layer loop of `forwardDual`: every neuron of weighted
      layer `x` is computed from the layer before it.  The two counters enter
      at the first weight and the first bias of the layer and leave at the
      first of the next layer.  The source stores each neuron in its slot as
      soon as it is computed; since the loop reads only layer `x`, the model
      collects the layer in `next` and stores it once.
    */
    method FeedLayer(x: nat, weightIndex: nat, biasIndex: nat) returns (weightIndex': nat, biasIndex': nat)
      requires Valid() && x < Layers(desc)
      requires weightIndex == WeightsBefore(desc, x) && biasIndex == numWeights + BiasesBefore(desc, x)
      modifies this`vals
      ensures Valid()
      ensures vals == old(vals)[x + 1 := LayerDual(libm, desc, weights, biases, old(vals)[x], x)]
      ensures weightIndex' == WeightsBefore(desc, x + 1) && biasIndex' == numWeights + BiasesBefore(desc, x + 1)
    {
      ghost var layer := LayerDual(libm, desc, weights, biases, vals[x], x);
      var next := vals[x + 1];
      weightIndex', biasIndex' := weightIndex, biasIndex;
      for y := 0 to |weights[x]|
        invariant unchanged(this)
        invariant |next| == desc[x + 1]
        invariant forall y' :: 0 <= y' < y ==> next[y'] == layer[y']
        invariant weightIndex' == WeightsBefore(desc, x) + y * desc[x]
        invariant biasIndex' == numWeights + BiasesBefore(desc, x) + y
      {
        var v;
        v, weightIndex' := NeuronValue(x, y, weightIndex', biasIndex');
        NextRow(WeightsBefore(desc, x), y, desc[x]);
        next := next[y := v];
        biasIndex' := biasIndex' + 1;
      }
      LayerWeightsEnd(desc, x);
      assert next == layer;
      vals := vals[x + 1 := next];
    }

    /**
      The value of neuron `y` of weighted layer `x` in the layer loop of
      `forwardDual`: its bias seeded as variable `biasIndex`, plus every
      weight, seeded as the variables from `weightIndex` on, times the input
      it scales; then the activation.  The source accumulates the sum in the
      neuron's own slot; it is accumulated here in `v` and stored by the caller.
    */
    method NeuronValue(x: nat, y: nat, weightIndex: nat, biasIndex: nat) returns (v: DualNumber, weightIndex': nat)
      requires Valid() && x < Layers(desc) && y < desc[x + 1]
      requires weightIndex == WeightsBefore(desc, x) + y * desc[x] && biasIndex == numWeights + BiasesBefore(desc, x) + y
      ensures v == Activate(libm, PreActivation(desc, weights, biases, vals[x], x, y, desc[x]))
      ensures v.Valid() && v.numVariables == numVars
      ensures weightIndex' == weightIndex + desc[x]
    {
      weightIndex' := weightIndex;
      assert biasIndex == Index(desc, Bias(x, y));
      v := NewVariable(numVars, biases[x][y], biasIndex);
      for z := 0 to |weights[x][y]|
        invariant v == PreActivation(desc, weights, biases, vals[x], x, y, z)
        invariant weightIndex' == weightIndex + z
      {
        assert weightIndex' == Index(desc, Weight(x, y, z));
        var w := NewVariable(numVars, weights[x][y][z], weightIndex');
        var t := Mul(w, vals[x][z]);
        v := Add(v, t);
        weightIndex' := weightIndex' + 1;
      }
      // `activate` is the dual sine
      v := Sin(libm, v);
    }

    /**
      `subGrad`: scales the gradient `g` by the learning rate `lr` and
      subtracts from every weight and bias the partial at its own index.
    */
    method SubGrad(g: DualNumber, lr: real)
      requires Valid() && g.Valid() && g.numVariables == numVars
      modifies this`weights, this`biases
      ensures Valid()
      ensures weights == StepWeights(desc, old(weights), old(biases), g, lr)
      ensures biases == StepBiases(desc, old(weights), old(biases), g, lr)
    {
      var lrc := NewConstant(numVars, lr);
      var s := Mul(g, lrc);
      assert s == Scaled(g, lr);
      var weightIndex := 0;
      var biasIndex := numWeights;
      for x := 0 to |weights|
        invariant Valid()
        invariant forall x' :: 0 <= x' < x ==>
          weights[x'] == StepLayerWeights(desc, old(weights)[x'], x', s) && biases[x'] == StepLayerBiases(desc, old(biases)[x'], x', s)
        invariant forall x' :: x <= x' < |weights| ==> weights[x'] == old(weights)[x'] && biases[x'] == old(biases)[x']
        invariant weightIndex == WeightsBefore(desc, x) && biasIndex == numWeights + BiasesBefore(desc, x)
      {
        weightIndex, biasIndex := StepLayer(x, s, weightIndex, biasIndex);
      }
      assert weights == StepWeights(desc, old(weights), old(biases), g, lr);
      assert biases == StepBiases(desc, old(weights), old(biases), g, lr);
    }

    /**
      One pass of the layer loop of `subGrad`: every bias and weight of layer
      `x` moves against the partial of the scaled gradient `s` at the index
      its counter holds.  The source subtracts in place slot by slot; the
      model collects the layer and stores it once, which no slot can observe.
    */
    method StepLayer(x: nat, s: DualNumber, weightIndex: nat, biasIndex: nat) returns (weightIndex': nat, biasIndex': nat)
      requires Valid() && x < Layers(desc) && s.Valid() && s.numVariables == numVars
      requires weightIndex == WeightsBefore(desc, x) && biasIndex == numWeights + BiasesBefore(desc, x)
      modifies this`weights, this`biases
      ensures Valid()
      ensures weights == old(weights)[x := StepLayerWeights(desc, old(weights)[x], x, s)]
      ensures biases == old(biases)[x := StepLayerBiases(desc, old(biases)[x], x, s)]
      ensures weightIndex' == WeightsBefore(desc, x + 1) && biasIndex' == numWeights + BiasesBefore(desc, x + 1)
    {
      var ws := weights[x];
      var bs := biases[x];
      ghost var stepped := StepLayerWeights(desc, ws, x, s);
      ghost var steppedBiases := StepLayerBiases(desc, bs, x, s);
      ghost var oldBiases := bs;
      weightIndex', biasIndex' := weightIndex, biasIndex;
      for y := 0 to |weights[x]|
        invariant unchanged(this)
        invariant |ws| == |bs| == desc[x + 1] && forall y' :: 0 <= y' < |ws| ==> |ws[y']| == desc[x]
        invariant forall y' :: 0 <= y' < y ==> ws[y'] == stepped[y']
        invariant forall y' :: 0 <= y' < y ==> bs[y'] == steppedBiases[y']
        invariant forall y' :: y <= y' < |bs| ==> bs[y'] == oldBiases[y']
        invariant weightIndex' == WeightsBefore(desc, x) + y * desc[x]
        invariant biasIndex' == numWeights + BiasesBefore(desc, x) + y
      {
        assert biasIndex' == Index(desc, Bias(x, y));
        bs := bs[y := bs[y] - s.dual[biasIndex']];
        var row;
        row, weightIndex' := StepRow(x, y, s, weightIndex');
        NextRow(WeightsBefore(desc, x), y, desc[x]);
        ws := ws[y := row];
        biasIndex' := biasIndex' + 1;
      }
      LayerWeightsEnd(desc, x);
      assert ws == stepped;
      assert bs == steppedBiases;
      weights := weights[x := ws];
      biases := biases[x := bs];
    }

    /**
      The weight loop of `subGrad` for neuron `y` of layer `x`: each weight
      moves against the partial of `s` at the weight counter, which advances
      by one per weight.
    */
    method StepRow(x: nat, y: nat, s: DualNumber, weightIndex: nat) returns (row: seq<real>, weightIndex': nat)
      requires Valid() && x < Layers(desc) && y < desc[x + 1] && s.Valid() && s.numVariables == numVars
      requires weightIndex == WeightsBefore(desc, x) + y * desc[x]
      ensures row == StepLayerWeights(desc, weights[x], x, s)[y]
      ensures weightIndex' == weightIndex + desc[x]
    {
      row := weights[x][y];
      weightIndex' := weightIndex;
      for z := 0 to |weights[x][y]|
        invariant |row| == desc[x]
        invariant forall z' :: 0 <= z' < z ==> row[z'] == StepLayerWeights(desc, weights[x], x, s)[y][z']
        invariant forall z' :: z <= z' < |row| ==> row[z'] == weights[x][y][z']
        invariant weightIndex' == weightIndex + z
      {
        assert weightIndex' == Index(desc, Weight(x, y, z));
        row := row[z := row[z] - s.dual[weightIndex']];
        weightIndex' := weightIndex' + 1;
      }
    }

    /**
      `forwardF`: the forward pass on real parts only.  Loads `inp` into the
      input layer, recomputes the real part of every later neuron, and
      returns the real parts of the output layer.  The partials stored in the
      neuron values are left as they were.
    */
    method ForwardF(inp: seq<real>) returns (outp: seq<real>)
      requires Valid() && |desc| > 0 && |inp| <= desc[0]
      modifies this`vals
      ensures Valid() && SameDuals(vals, old(vals))
      ensures |LoadReals(RealParts(old(vals)[0]), inp)| == desc[0]
      ensures forall k :: 0 <= k < |vals| ==>
        RealParts(vals[k]) == RealPass(libm, desc, weights, biases, LoadReals(RealParts(old(vals)[0]), inp), Layers(desc))[k]
      ensures outp == RealPass(libm, desc, weights, biases, LoadReals(RealParts(old(vals)[0]), inp), Layers(desc))[Layers(desc)]
    {
      var lne := |vals| - 1;
      var ol := |vals[lne]|;
      var out := new real[ol];
      LoadRealInput(inp);
      FeedForwardReal();
      assert lne < |vals| && |vals[lne]| == ol;
      ghost var computed := vals;
      for x := 0 to ol
        invariant vals == computed
        invariant forall x' :: 0 <= x' < x ==> out[x'] == vals[lne][x'].value
      {
        out[x] := vals[lne][x].value;
      }
      outp := out[..];
      assert outp == RealParts(vals[lne]);
    }

    /** The input loop of `forwardF`: the first |inp| input neurons take the inputs as real parts. */
    method LoadRealInput(inp: seq<real>)
      requires Valid() && |desc| > 0 && |inp| <= desc[0]
      modifies this`vals
      ensures Valid()
      ensures vals == old(vals)[0 := WithRealParts(old(vals)[0], LoadReals(RealParts(old(vals)[0]), inp))]
    {
      ghost var first := vals[0];
      for j := 0 to |inp|
        invariant ValuesShaped(desc, vals, numVars)
        invariant forall k :: 1 <= k < |vals| ==> vals[k] == old(vals)[k]
        invariant forall j' :: 0 <= j' < j ==> vals[0][j'] == first[j'].(value := inp[j'])
        invariant forall j' :: j <= j' < desc[0] ==> vals[0][j'] == first[j']
      {
        SetNeuron(desc, vals, numVars, 0, j, vals[0][j].(value := inp[j]));
        vals := vals[0 := vals[0][j := vals[0][j].(value := inp[j])]];
      }
      assert vals[0] == WithRealParts(first, LoadReals(RealParts(first), inp));
      assert vals == old(vals)[0 := WithRealParts(first, LoadReals(RealParts(first), inp))];
    }

    /** The layer loop of `forwardF`: every weighted layer in turn, on real parts. */
    method FeedForwardReal()
      requires Valid() && |desc| > 0
      modifies this`vals
      ensures Valid() && SameDuals(vals, old(vals))
      ensures forall k :: 0 <= k < |vals| ==>
        RealParts(vals[k]) == RealPass(libm, desc, weights, biases, RealParts(old(vals)[0]), Layers(desc))[k]
    {
      ghost var layer0 := RealParts(vals[0]);
      for x := 0 to |weights|
        invariant Valid() && SameDuals(vals, old(vals))
        invariant forall k :: 0 <= k <= x ==> RealParts(vals[k]) == RealPass(libm, desc, weights, biases, layer0, x)[k]
      {
        ghost var before := vals;
        FeedLayerReal(x);
        SetRealParts(before, old(vals), x + 1, LayerReal(libm, desc, weights, biases, RealParts(before[x]), x));
      }
    }

    /**
      One pass of the layer loop of `forwardF`: the real part of every neuron
      of weighted layer `x` from the real parts of the layer before it.  The
      layer is collected in `next` and stored once, as in `forwardDual`.
    */
    method FeedLayerReal(x: nat)
      requires Valid() && x < Layers(desc)
      modifies this`vals
      ensures Valid()
      ensures vals == old(vals)[x + 1 := WithRealParts(old(vals)[x + 1], LayerReal(libm, desc, weights, biases, RealParts(old(vals)[x]), x))]
    {
      ghost var layer := LayerReal(libm, desc, weights, biases, RealParts(vals[x]), x);
      var next := vals[x + 1];
      for y := 0 to |weights[x]|
        invariant unchanged(this)
        invariant |next| == desc[x + 1]
        invariant forall y' :: 0 <= y' < y ==> next[y'] == vals[x + 1][y'].(value := layer[y'])
        invariant forall y' :: y <= y' < |next| ==> next[y'] == vals[x + 1][y']
      {
        var v := NeuronReal(x, y);
        var a := Sin(libm, next[y].(value := v));
        next := next[y := next[y].(value := a.value)];
      }
      assert next == WithRealParts(vals[x + 1], layer);
      vals := vals[x + 1 := next];
    }

    /**
      The real part of neuron `y` of weighted layer `x` before activation in
      `forwardF`: its bias plus every weight times the real part it scales.
    */
    method NeuronReal(x: nat, y: nat) returns (v: real)
      requires Valid() && x < Layers(desc) && y < desc[x + 1]
      ensures v == PreActivationReal(desc, weights, biases, RealParts(vals[x]), x, y, desc[x])
    {
      v := biases[x][y];
      for z := 0 to |weights[x][y]|
        invariant v == PreActivationReal(desc, weights, biases, RealParts(vals[x]), x, y, z)
      {
        v := v + weights[x][y][z] * vals[x][z].value;
      }
    }

    /**
      `train`: checks that the first sample fits the input and output
      layers, stopping with the mismatch otherwise, then runs `n` epochs.
      Each epoch sums the costs of all samples with `forwardDual`, divides
      the sum by the number of samples and moves the parameters with
      `subGrad`; the result is the average cost of the last epoch.
    */
    method Train(n: int, learnRate: real, inp: seq<seq<real>>, outp: seq<seq<real>>) returns (r: TrainResult)
      requires Valid() && |desc| >= 2 && |inp| > 0 && |outp| > 0
      requires |inp[0]| == desc[0] && |outp[0]| == OutputSize(desc) ==> n > 0 && SamplesFit(desc, inp, outp)
      modifies this`vals, this`weights, this`biases
      ensures Valid()
      ensures r == Aborted(InputSizeMismatch) <==> |inp[0]| != desc[0]
      ensures r == Aborted(OutputSizeMismatch) <==> |inp[0]| == desc[0] && |outp[0]| != OutputSize(desc)
      ensures r.Trained? <==> |inp[0]| == desc[0] && |outp[0]| == OutputSize(desc)
      ensures r.Aborted? ==> unchanged(this)
      ensures r.Trained? ==>
        n > 0 && SamplesFit(desc, inp, outp) &&
        State() == TrainedNet(libm, desc, old(State()), learnRate, inp, outp, n) &&
        r.cost == AverageCost(libm, desc, TrainedNet(libm, desc, old(State()), learnRate, inp, outp, n - 1), inp, outp).value
    {
      if |inp[0]| != |weights[0][0]| {
        return Aborted(InputSizeMismatch);
      }
      if |outp[0]| != |weights[|weights| - 1]| {
        return Aborted(OutputSizeMismatch);
      }
      var m := RunEpochs(n, learnRate, inp, outp);
      r := Trained(m);
    }

    /**
      The epoch loop of `train` once the sizes have been checked: `n` epochs,
      returning the average cost of the last one.
    */
    method RunEpochs(n: int, learnRate: real, inp: seq<seq<real>>, outp: seq<seq<real>>) returns (m: real)
      requires Valid() && |desc| > 0 && |inp| > 0 && n > 0 && SamplesFit(desc, inp, outp)
      modifies this`vals, this`weights, this`biases
      ensures Valid()
      ensures State() == TrainedNet(libm, desc, old(State()), learnRate, inp, outp, n)
      ensures m == AverageCost(libm, desc, TrainedNet(libm, desc, old(State()), learnRate, inp, outp, n - 1), inp, outp).value
    {
      // `m` is uninitialised in the original; the first epoch assigns it.
      m := 0.0;
      ghost var start := State();
      assert NetShaped(desc, start);
      for x := 0 to n
        invariant Valid()
        invariant State() == TrainedNet(libm, desc, start, learnRate, inp, outp, x)
        invariant x > 0 ==> m == AverageCost(libm, desc, TrainedNet(libm, desc, start, learnRate, inp, outp, x - 1), inp, outp).value
      {
        var c := TrainEpoch(learnRate, inp, outp);
        m := c.value;
      }
    }

    /**
      One pass of the epoch loop of `train`: the average cost of the
      samples, then `subGrad` with that average.
    */
    method TrainEpoch(learnRate: real, inp: seq<seq<real>>, outp: seq<seq<real>>) returns (c: DualNumber)
      requires Valid() && SamplesFit(desc, inp, outp) && |inp| > 0
      modifies this`vals, this`weights, this`biases
      ensures Valid()
      ensures c == AverageCost(libm, desc, old(State()), inp, outp)
      ensures State() == Epoch(libm, desc, old(State()), learnRate, inp, outp)
    {
      ghost var net := State();
      assert NetShaped(desc, net);
      c := AverageEpochCost(inp, outp);
      ghost var swept := vals;
      SubGrad(c, learnRate);
      assert State() == Net(StepWeights(desc, net.weights, net.biases, c, learnRate),
                            StepBiases(desc, net.weights, net.biases, c, learnRate), swept);
    }

    /**
      The first part of one epoch of `train`: the summed sample costs divided
      by the number of samples.
    */
    method AverageEpochCost(inp: seq<seq<real>>, outp: seq<seq<real>>) returns (c: DualNumber)
      requires Valid() && SamplesFit(desc, inp, outp) && |inp| > 0
      modifies this`vals
      ensures Valid()
      ensures vals == Accumulated(libm, desc, old(State()), inp, outp, |inp|).0
      ensures c == AverageCost(libm, desc, old(State()), inp, outp)
    {
      ghost var net := State();
      assert NetShaped(desc, net);
      c := EpochCost(inp, outp);
      assert c == TotalCost(libm, desc, net, inp, outp);
      var count := NewConstant(numVars, |inp| as real);
      c := Div(c, count);
    }

    /**
      The sample loop of one epoch of `train`: the sum of the costs that
      `forwardDual` returns for every sample, in order.
    */
    method EpochCost(inp: seq<seq<real>>, outp: seq<seq<real>>) returns (c: DualNumber)
      requires Valid() && SamplesFit(desc, inp, outp)
      modifies this`vals
      ensures Valid()
      ensures vals == Accumulated(libm, desc, old(State()), inp, outp, |inp|).0
      ensures c == TotalCost(libm, desc, old(State()), inp, outp)
    {
      ghost var net := State();
      c := NewConstant(numVars, 0.0);
      for y := 0 to |inp|
        invariant Valid() && weights == net.weights && biases == net.biases
        invariant vals == Accumulated(libm, desc, net, inp, outp, y).0
        invariant c == Accumulated(libm, desc, net, inp, outp, y).1
      {
        c := AddSampleCost(net, inp, outp, y, c);
      }
    }

    /**
      One pass of the sample loop: `forwardDual` on sample `y` from the
      values the previous samples left, its cost added to the running sum.
    */
    method AddSampleCost(ghost net: Net, inp: seq<seq<real>>, outp: seq<seq<real>>, y: nat, c: DualNumber) returns (c': DualNumber)
      requires Valid() && SamplesFit(desc, inp, outp) && y < |inp|
      requires NetShaped(desc, net) && weights == net.weights && biases == net.biases
      requires vals == Accumulated(libm, desc, net, inp, outp, y).0
      requires c == Accumulated(libm, desc, net, inp, outp, y).1
      modifies this`vals
      ensures Valid()
      ensures vals == Accumulated(libm, desc, net, inp, outp, y + 1).0
      ensures c' == Accumulated(libm, desc, net, inp, outp, y + 1).1
    {
      assert State() == net.(vals := vals);
      var cost := ForwardDual(inp[y], outp[y]);
      c' := Add(c, cost);
    }
  }
}
