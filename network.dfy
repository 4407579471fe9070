/**
  What the network computes, as functions of its parameters.

  The dual forward pass seeds every parameter as a tracked variable (its own
  index from ParameterIndex), so the cost it returns carries the gradient of
  the cost with respect to every weight and bias.  The real forward pass is the
  same recurrence on values alone.  Training averages per-sample costs and
  moves every parameter against its partial, scaled by the learning rate.
*/
module Network {
  import opened DualNumbers
  import opened DualLaws
  import opened ParameterIndex

  /** (weighted layer, neuron, input) */
  type Weights = seq<seq<seq<real>>>
  /** (weighted layer, neuron) */
  type Biases = seq<seq<real>>
  /** (layer, neuron), the input layer included */
  type Values = seq<seq<DualNumber>>

  /** The parameters have the shape the descriptor prescribes. */
  predicate Shaped(desc: seq<nat>, weights: Weights, biases: Biases) {
    |weights| == Layers(desc) && |biases| == Layers(desc) &&
    (forall x :: 0 <= x < |weights| ==> |weights[x]| == desc[x + 1] && |biases[x]| == desc[x + 1]) &&
    (forall x, y :: 0 <= x < |weights| && 0 <= y < |weights[x]| ==> |weights[x][y]| == desc[x])
  }

  /** Every dual number of a layer is well formed over `n` variables. */
  predicate Uniform(layer: seq<DualNumber>, n: nat) {
    forall u :: 0 <= u < |layer| ==> layer[u].Valid() && layer[u].numVariables == n
  }

  /** One dual number per neuron of every layer, each over `n` variables. */
  predicate ValuesShaped(desc: seq<nat>, vals: Values, n: nat) {
    |vals| == |desc| &&
    forall k :: 0 <= k < |vals| ==> |vals[k]| == desc[k] && Uniform(vals[k], n)
  }

  /** The real parts of a layer. */
  function RealParts(layer: seq<DualNumber>): (r: seq<real>)
    ensures |r| == |layer| && forall u :: 0 <= u < |layer| ==> r[u] == layer[u].value
  {
    seq(|layer|, u requires 0 <= u < |layer| => layer[u].value)
  }

  // ---------------------------------------------------------------------
  // Dual forward pass
  // ---------------------------------------------------------------------

  /** The requirements shared by the per-neuron functions of layer `x`, fed by `prev`. */
  predicate Feeds(desc: seq<nat>, weights: Weights, biases: Biases, prev: seq<DualNumber>, x: nat) {
    Shaped(desc, weights, biases) && x < Layers(desc) &&
    |prev| == desc[x] && Uniform(prev, NumVars(desc))
  }

  /**
    The value of neuron `y` of weighted layer `x` before activation, after its
    first `z` weights: the neuron's bias seeded as its tracked variable, plus
    each weight, seeded as its own tracked variable, times the input it scales.
  */
  function PreActivation(desc: seq<nat>, weights: Weights, biases: Biases, prev: seq<DualNumber>,
                         x: nat, y: nat, z: nat): (r: DualNumber)
    requires Feeds(desc, weights, biases, prev, x) && y < desc[x + 1] && z <= desc[x]
    ensures r.Valid() && r.numVariables == NumVars(desc)
  {
    var n := NumVars(desc);
    if z == 0 then
      Variable(n, biases[x][y], Index(desc, Bias(x, y)))
    else
      var w := Variable(n, weights[x][y][z - 1], Index(desc, Weight(x, y, z - 1)));
      Sum(PreActivation(desc, weights, biases, prev, x, y, z - 1), Product(w, prev[z - 1]))
  }

  /** The activation function: the sine of the neuron's value. */
  function Activate(m: Libm, v: DualNumber): (r: DualNumber)
    requires v.Valid()
    ensures r.Valid() && r.numVariables == v.numVariables
    ensures r.value == m.sin(v.value)
    ensures forall i :: 0 <= i < v.numVariables ==> r.dual[i] == v.dual[i] * m.cos(v.value)
  {
    Sine(m, v)
  }

  /** Weighted layer `x` from the layer before it. */
  function LayerDual(m: Libm, desc: seq<nat>, weights: Weights, biases: Biases, prev: seq<DualNumber>, x: nat): (r: seq<DualNumber>)
    requires Feeds(desc, weights, biases, prev, x)
    ensures |r| == desc[x + 1] && Uniform(r, NumVars(desc))
  {
    seq(desc[x + 1], y requires 0 <= y < desc[x + 1] =>
      Activate(m, PreActivation(desc, weights, biases, prev, x, y, desc[x])))
  }

  /** Layers 0 to `x` of the dual forward pass, from the input layer `layer0`. */
  function DualPass(m: Libm, desc: seq<nat>, weights: Weights, biases: Biases, layer0: seq<DualNumber>, x: nat): (r: Values)
    requires Shaped(desc, weights, biases) && |desc| > 0 && x <= Layers(desc)
    requires |layer0| == desc[0] && Uniform(layer0, NumVars(desc))
    ensures |r| == x + 1 && r[0] == layer0
    ensures forall k :: 0 <= k < |r| ==> |r[k]| == desc[k] && Uniform(r[k], NumVars(desc))
  {
    if x == 0 then
      [layer0]
    else
      var before := DualPass(m, desc, weights, biases, layer0, x - 1);
      before + [LayerDual(m, desc, weights, biases, before[x - 1], x - 1)]
  }

  /**
    The input layer after loading `inp`: the first |inp| neurons become
    constants over `n` variables; the others keep their previous value.
  */
  function LoadInputs(layer0: seq<DualNumber>, inp: seq<real>, n: nat): (r: seq<DualNumber>)
    requires |inp| <= |layer0|
    ensures |r| == |layer0|
    ensures forall j :: 0 <= j < |inp| ==> r[j] == Constant(n, inp[j])
    ensures forall j :: |inp| <= j < |layer0| ==> r[j] == layer0[j]
  {
    seq(|layer0|, j requires 0 <= j < |layer0| => if j < |inp| then Constant(n, inp[j]) else layer0[j])
  }

  /**
    The cost over the first `k` outputs: the sum of (target - output)^2, each
    term divided by the number of output neurons.
  */
  function Cost(m: Libm, n: nat, outp: seq<real>, out: seq<DualNumber>, k: nat): (r: DualNumber)
    requires k <= |outp| <= |out| && Uniform(out, n)
    ensures r.Valid() && r.numVariables == n
  {
    if k == 0 then
      Constant(n)
    else
      var err := Difference(Constant(n, outp[k - 1]), out[k - 1]);
      Sum(Cost(m, n, outp, out, k - 1), Quotient(Power(m, err, 2.0), Constant(n, |out| as real)))
  }

  // ---------------------------------------------------------------------
  // Real forward pass
  // ---------------------------------------------------------------------

  predicate FeedsReal(desc: seq<nat>, weights: Weights, biases: Biases, prev: seq<real>, x: nat) {
    Shaped(desc, weights, biases) && x < Layers(desc) && |prev| == desc[x]
  }

  /** The real value of neuron `y` of layer `x` before activation, after its first `z` weights. */
  function PreActivationReal(desc: seq<nat>, weights: Weights, biases: Biases, prev: seq<real>,
                             x: nat, y: nat, z: nat): real
    requires FeedsReal(desc, weights, biases, prev, x) && y < desc[x + 1] && z <= desc[x]
  {
    if z == 0 then biases[x][y]
    else PreActivationReal(desc, weights, biases, prev, x, y, z - 1) + weights[x][y][z - 1] * prev[z - 1]
  }

  /** Weighted layer `x` on real values. */
  function LayerReal(m: Libm, desc: seq<nat>, weights: Weights, biases: Biases, prev: seq<real>, x: nat): (r: seq<real>)
    requires FeedsReal(desc, weights, biases, prev, x)
    ensures |r| == desc[x + 1]
  {
    seq(desc[x + 1], y requires 0 <= y < desc[x + 1] =>
      m.sin(PreActivationReal(desc, weights, biases, prev, x, y, desc[x])))
  }

  /** Layers 0 to `x` of the real forward pass, from input-layer values `layer0`. */
  function RealPass(m: Libm, desc: seq<nat>, weights: Weights, biases: Biases, layer0: seq<real>, x: nat): (r: seq<seq<real>>)
    requires Shaped(desc, weights, biases) && |desc| > 0 && x <= Layers(desc) && |layer0| == desc[0]
    ensures |r| == x + 1 && r[0] == layer0
    ensures forall k :: 0 <= k < |r| ==> |r[k]| == desc[k]
  {
    if x == 0 then
      [layer0]
    else
      var before := RealPass(m, desc, weights, biases, layer0, x - 1);
      before + [LayerReal(m, desc, weights, biases, before[x - 1], x - 1)]
  }

  /** The input layer's values after loading `inp`; the others keep their previous value. */
  function LoadReals(layer0: seq<real>, inp: seq<real>): (r: seq<real>)
    requires |inp| <= |layer0|
    ensures |r| == |layer0|
    ensures forall j :: 0 <= j < |inp| ==> r[j] == inp[j]
    ensures forall j :: |inp| <= j < |layer0| ==> r[j] == layer0[j]
  {
    seq(|layer0|, j requires 0 <= j < |layer0| => if j < |inp| then inp[j] else layer0[j])
  }

  /** A layer whose real parts are replaced by `r`; partials and variable counts are kept. */
  function WithRealParts(layer: seq<DualNumber>, r: seq<real>): (w: seq<DualNumber>)
    requires |r| == |layer|
    ensures |w| == |layer| && RealParts(w) == r
    ensures forall u :: 0 <= u < |w| ==> w[u] == layer[u].(value := r[u])
  {
    seq(|layer|, u requires 0 <= u < |layer| => layer[u].(value := r[u]))
  }

  /** Two sets of neuron values that differ at most in their real parts. */
  predicate SameDuals(a: Values, b: Values) {
    |a| == |b| &&
    forall k :: 0 <= k < |a| ==>
      |a[k]| == |b[k]| &&
      forall u :: 0 <= u < |a[k]| ==> a[k][u].numVariables == b[k][u].numVariables && a[k][u].dual == b[k][u].dual
  }

  // ---------------------------------------------------------------------
  // The real pass is the real part of the dual pass
  // ---------------------------------------------------------------------

  lemma {:induction false} PreActivationValue(desc: seq<nat>, weights: Weights, biases: Biases, prev: seq<DualNumber>,
                                              x: nat, y: nat, z: nat)
    requires Feeds(desc, weights, biases, prev, x) && y < desc[x + 1] && z <= desc[x]
    ensures FeedsReal(desc, weights, biases, RealParts(prev), x)
    ensures PreActivation(desc, weights, biases, prev, x, y, z).value
         == PreActivationReal(desc, weights, biases, RealParts(prev), x, y, z)
  {
    if z > 0 {
      PreActivationValue(desc, weights, biases, prev, x, y, z - 1);
    }
  }

  lemma LayerValues(m: Libm, desc: seq<nat>, weights: Weights, biases: Biases, prev: seq<DualNumber>, x: nat)
    requires Feeds(desc, weights, biases, prev, x)
    ensures FeedsReal(desc, weights, biases, RealParts(prev), x)
    ensures RealParts(LayerDual(m, desc, weights, biases, prev, x)) == LayerReal(m, desc, weights, biases, RealParts(prev), x)
  {
    var d := LayerDual(m, desc, weights, biases, prev, x);
    var r := LayerReal(m, desc, weights, biases, RealParts(prev), x);
    forall y | 0 <= y < desc[x + 1] ensures RealParts(d)[y] == r[y] {
      PreActivationValue(desc, weights, biases, prev, x, y, desc[x]);
    }
  }

  /** The real forward pass computes exactly the real parts of the dual forward pass. */
  lemma {:induction false} RealPassIsRealParts(m: Libm, desc: seq<nat>, weights: Weights, biases: Biases, layer0: seq<DualNumber>, x: nat)
    requires Shaped(desc, weights, biases) && |desc| > 0 && x <= Layers(desc)
    requires |layer0| == desc[0] && Uniform(layer0, NumVars(desc))
    ensures forall k :: 0 <= k <= x ==>
      RealParts(DualPass(m, desc, weights, biases, layer0, x)[k]) == RealPass(m, desc, weights, biases, RealParts(layer0), x)[k]
  {
    if x > 0 {
      RealPassIsRealParts(m, desc, weights, biases, layer0, x - 1);
      var before := DualPass(m, desc, weights, biases, layer0, x - 1);
      LayerValues(m, desc, weights, biases, before[x - 1], x - 1);
    }
  }

  /** Loading inputs into the dual layer, then taking real parts, is loading them into the real layer. */
  lemma LoadInputsValues(layer0: seq<DualNumber>, inp: seq<real>, n: nat)
    requires |inp| <= |layer0|
    ensures RealParts(LoadInputs(layer0, inp, n)) == LoadReals(RealParts(layer0), inp)
  {
  }

  /** Loading the same input twice leaves the input layer as loading it once. */
  lemma LoadRealsIdempotent(layer0: seq<real>, inp: seq<real>)
    requires |inp| <= |layer0|
    ensures LoadReals(LoadReals(layer0, inp), inp) == LoadReals(layer0, inp)
  {
  }

  // ---------------------------------------------------------------------
  // The cost's value is the mean squared error
  // ---------------------------------------------------------------------

  /** pow(t, 2) = t^2 for every t. */
  ghost predicate SquaringPow(m: Libm) {
    forall t :: m.pow(t, 2.0) == t * t
  }

  /** The sum of the squared errors of the first `k` outputs. */
  function SquaredErrors(outp: seq<real>, out: seq<real>, k: nat): real
    requires k <= |outp| && k <= |out|
  {
    if k == 0 then 0.0
    else SquaredErrors(outp, out, k - 1) + (outp[k - 1] - out[k - 1]) * (outp[k - 1] - out[k - 1])
  }

  lemma AddDivided(x: real, y: real, z: real)
    requires z != 0.0
    ensures x / z + y / z == (x + y) / z
  {
  }

  /** With pow(t, 2) = t^2 at the error t, one more output adds t^2, divided by the output count, to the cost. */
  lemma CostStepValue(m: Libm, n: nat, outp: seq<real>, out: seq<DualNumber>, k: nat)
    requires 0 < k <= |outp| <= |out| && Uniform(out, n)
    requires m.pow(outp[k - 1] - out[k - 1].value, 2.0) == (outp[k - 1] - out[k - 1].value) * (outp[k - 1] - out[k - 1].value)
    ensures Cost(m, n, outp, out, k).value
         == Cost(m, n, outp, out, k - 1).value
          + (outp[k - 1] - out[k - 1].value) * (outp[k - 1] - out[k - 1].value) / (|out| as real)
  {
    var err := Difference(Constant(n, outp[k - 1]), out[k - 1]);
    var term := Quotient(Power(m, err, 2.0), Constant(n, |out| as real));
    assert Cost(m, n, outp, out, k).value == Cost(m, n, outp, out, k - 1).value + term.value;
    assert err.value == outp[k - 1] - out[k - 1].value;
    assert term.value == m.pow(err.value, 2.0) / (|out| as real);
  }

  /** One more output adds its squared error to the sum of squared errors. */
  lemma SquaredErrorsStep(outp: seq<real>, out: seq<DualNumber>, k: nat, count: real)
    requires 0 < k <= |outp| <= |out| && count != 0.0
    ensures SquaredErrors(outp, RealParts(out), k - 1) / count
          + (outp[k - 1] - out[k - 1].value) * (outp[k - 1] - out[k - 1].value) / count
         == SquaredErrors(outp, RealParts(out), k) / count
  {
    var t := outp[k - 1] - out[k - 1].value;
    var before := SquaredErrors(outp, RealParts(out), k - 1);
    assert RealParts(out)[k - 1] == out[k - 1].value;
    assert SquaredErrors(outp, RealParts(out), k) == before + t * t;
    AddDivided(before, t * t, count);
    DivEq(SquaredErrors(outp, RealParts(out), k), before + t * t, count);
  }

  /**
    When pow squares, the cost's value is the mean squared error over the
    first `k` outputs: the sum of squared errors divided by the output count.
  */
  lemma {:induction false} CostValue(m: Libm, n: nat, outp: seq<real>, out: seq<DualNumber>, k: nat)
    requires k <= |outp| <= |out| && 0 < |out| && Uniform(out, n) && SquaringPow(m)
    ensures Cost(m, n, outp, out, k).value == SquaredErrors(outp, RealParts(out), k) / (|out| as real)
  {
    if k > 0 {
      CostValue(m, n, outp, out, k - 1);
      var t := outp[k - 1] - out[k - 1].value;
      assert m.pow(t, 2.0) == t * t;
      CostStepValue(m, n, outp, out, k);
      SquaredErrorsStep(outp, out, k, |out| as real);
    }
  }

  // ---------------------------------------------------------------------
  // Parameter update
  // ---------------------------------------------------------------------

  /** The gradient scaled by the learning rate, as a product with a constant. */
  function Scaled(g: DualNumber, lr: real): (r: DualNumber)
    requires g.Valid()
    ensures r.Valid() && r.numVariables == g.numVariables
    ensures forall i :: 0 <= i < g.numVariables ==> r.dual[i] == lr * g.dual[i]
  {
    ProductByConstant(g, Constant(g.numVariables, lr));
    Product(g, Constant(g.numVariables, lr))
  }

  /** The weights of layer `x` after moving each against partial `Index(Weight(x, y, z))` of `s`. */
  function StepLayerWeights(desc: seq<nat>, layer: seq<seq<real>>, x: nat, s: DualNumber): (r: seq<seq<real>>)
    requires x < Layers(desc) && |layer| == desc[x + 1] && forall y :: 0 <= y < |layer| ==> |layer[y]| == desc[x]
    requires s.Valid() && s.numVariables == NumVars(desc)
    ensures |r| == |layer| && forall y :: 0 <= y < |r| ==> |r[y]| == desc[x]
  {
    seq(|layer|, y requires 0 <= y < |layer| =>
      seq(|layer[y]|, z requires 0 <= z < |layer[y]| => layer[y][z] - s.dual[Index(desc, Weight(x, y, z))]))
  }

  /** The biases of layer `x` after moving each against partial `Index(Bias(x, y))` of `s`. */
  function StepLayerBiases(desc: seq<nat>, layer: seq<real>, x: nat, s: DualNumber): (r: seq<real>)
    requires x < Layers(desc) && |layer| == desc[x + 1]
    requires s.Valid() && s.numVariables == NumVars(desc)
    ensures |r| == |layer|
  {
    seq(|layer|, y requires 0 <= y < |layer| => layer[y] - s.dual[Index(desc, Bias(x, y))])
  }

  /** Every weight minus the partial of the scaled gradient at its index. */
  function StepWeights(desc: seq<nat>, weights: Weights, biases: Biases, g: DualNumber, lr: real): (r: Weights)
    requires Shaped(desc, weights, biases) && g.Valid() && g.numVariables == NumVars(desc)
    ensures Shaped(desc, r, biases)
    ensures forall x, y, z :: 0 <= x < |r| && 0 <= y < |r[x]| && 0 <= z < |r[x][y]| ==>
      r[x][y][z] == weights[x][y][z] - lr * g.dual[Index(desc, Weight(x, y, z))]
  {
    var s := Scaled(g, lr);
    seq(|weights|, x requires 0 <= x < |weights| => StepLayerWeights(desc, weights[x], x, s))
  }

  /** Every bias minus the partial of the scaled gradient at its index. */
  function StepBiases(desc: seq<nat>, weights: Weights, biases: Biases, g: DualNumber, lr: real): (r: Biases)
    requires Shaped(desc, weights, biases) && g.Valid() && g.numVariables == NumVars(desc)
    ensures Shaped(desc, weights, r)
    ensures forall x, y :: 0 <= x < |r| && 0 <= y < |r[x]| ==>
      r[x][y] == biases[x][y] - lr * g.dual[Index(desc, Bias(x, y))]
  {
    var s := Scaled(g, lr);
    seq(|biases|, x requires 0 <= x < |biases| => StepLayerBiases(desc, biases[x], x, s))
  }

  // ---------------------------------------------------------------------
  // Training
  // ---------------------------------------------------------------------

  /** The network's state: parameters and the neuron values left by the last pass. */
  datatype Net = Net(weights: Weights, biases: Biases, vals: Values)

  predicate NetShaped(desc: seq<nat>, net: Net) {
    PositiveSizes(desc) && |desc| > 0 &&
    Shaped(desc, net.weights, net.biases) && ValuesShaped(desc, net.vals, NumVars(desc))
  }

  /** The size of the output layer. */
  function OutputSize(desc: seq<nat>): nat
    requires |desc| > 0
  {
    desc[|desc| - 1]
  }

  /** The neuron values after a dual pass on input `inp`. */
  function SampleVals(m: Libm, desc: seq<nat>, net: Net, inp: seq<real>): (r: Values)
    requires NetShaped(desc, net) && |inp| <= desc[0]
    ensures ValuesShaped(desc, r, NumVars(desc))
  {
    DualPass(m, desc, net.weights, net.biases, LoadInputs(net.vals[0], inp, NumVars(desc)), Layers(desc))
  }

  /** The cost, with its gradient, of one sample. */
  function SampleCost(m: Libm, desc: seq<nat>, net: Net, inp: seq<real>, outp: seq<real>): (r: DualNumber)
    requires NetShaped(desc, net) && |inp| <= desc[0] && |outp| <= OutputSize(desc)
    ensures r.Valid() && r.numVariables == NumVars(desc)
  {
    var vals := SampleVals(m, desc, net, inp);
    Cost(m, NumVars(desc), outp, vals[|vals| - 1], |outp|)
  }

  /** Every sample fits the input and output layers. */
  predicate SamplesFit(desc: seq<nat>, inps: seq<seq<real>>, outps: seq<seq<real>>) {
    |desc| > 0 && |inps| <= |outps| &&
    forall y :: 0 <= y < |inps| ==> |inps[y]| <= desc[0] && |outps[y]| <= OutputSize(desc)
  }

  /**
    The first `y` samples of an epoch, passed one after another: the neuron
    values the last pass leaves and the sum of the samples' costs.
  */
  function Accumulated(m: Libm, desc: seq<nat>, net: Net, inps: seq<seq<real>>, outps: seq<seq<real>>, y: nat): (r: (Values, DualNumber))
    requires NetShaped(desc, net) && SamplesFit(desc, inps, outps) && y <= |inps|
    ensures ValuesShaped(desc, r.0, NumVars(desc))
    ensures r.1.Valid() && r.1.numVariables == NumVars(desc)
  {
    if y == 0 then
      (net.vals, Constant(NumVars(desc), 0.0))
    else
      var before := Accumulated(m, desc, net, inps, outps, y - 1);
      var now := net.(vals := before.0);
      (SampleVals(m, desc, now, inps[y - 1]), Sum(before.1, SampleCost(m, desc, now, inps[y - 1], outps[y - 1])))
  }

  /** The average cost of an epoch, with its gradient. */
  function AverageCost(m: Libm, desc: seq<nat>, net: Net, inps: seq<seq<real>>, outps: seq<seq<real>>): (r: DualNumber)
    requires NetShaped(desc, net) && SamplesFit(desc, inps, outps) && |inps| > 0
    ensures r.Valid() && r.numVariables == NumVars(desc)
  {
    Quotient(TotalCost(m, desc, net, inps, outps), Constant(NumVars(desc), |inps| as real))
  }

  /** One epoch: every parameter moves against the average gradient, scaled by `lr`. */
  function Epoch(m: Libm, desc: seq<nat>, net: Net, lr: real, inps: seq<seq<real>>, outps: seq<seq<real>>): (r: Net)
    requires NetShaped(desc, net) && SamplesFit(desc, inps, outps) && |inps| > 0
    ensures NetShaped(desc, r)
  {
    var g := AverageCost(m, desc, net, inps, outps);
    Net(StepWeights(desc, net.weights, net.biases, g, lr),
        StepBiases(desc, net.weights, net.biases, g, lr),
        Accumulated(m, desc, net, inps, outps, |inps|).0)
  }

  /** The network after `epochs` epochs. */
  function TrainedNet(m: Libm, desc: seq<nat>, net: Net, lr: real, inps: seq<seq<real>>, outps: seq<seq<real>>, epochs: nat): (r: Net)
    requires NetShaped(desc, net) && SamplesFit(desc, inps, outps) && |inps| > 0
    ensures NetShaped(desc, r)
  {
    if epochs == 0 then net
    else Epoch(m, desc, TrainedNet(m, desc, net, lr, inps, outps, epochs - 1), lr, inps, outps)
  }

  /** The sum of an epoch's sample costs, with its gradient. */
  function TotalCost(m: Libm, desc: seq<nat>, net: Net, inps: seq<seq<real>>, outps: seq<seq<real>>): (r: DualNumber)
    requires NetShaped(desc, net) && SamplesFit(desc, inps, outps)
    ensures r.Valid() && r.numVariables == NumVars(desc)
  {
    Accumulated(m, desc, net, inps, outps, |inps|).1
  }

  /**
    The average cost is the summed cost of the epoch's samples divided by
    their number, value and every partial: an epoch moves every parameter
    (StepWeights, StepBiases) by the learning rate times the mean gradient.
  */
  lemma AverageCostIsMean(m: Libm, desc: seq<nat>, net: Net, inps: seq<seq<real>>, outps: seq<seq<real>>)
    requires NetShaped(desc, net) && SamplesFit(desc, inps, outps) && |inps| > 0
    ensures AverageCost(m, desc, net, inps, outps).value == TotalCost(m, desc, net, inps, outps).value / (|inps| as real)
    ensures forall i :: 0 <= i < NumVars(desc) ==>
      AverageCost(m, desc, net, inps, outps).dual[i] == TotalCost(m, desc, net, inps, outps).dual[i] / (|inps| as real)
  {
    QuotientByConstant(TotalCost(m, desc, net, inps, outps), Constant(NumVars(desc), |inps| as real));
  }

  /**
    The real pass on input `inp` yields exactly the real parts of the values
    the dual pass leaves for the same input and starting state.
  */
  lemma RealPassOfSample(m: Libm, desc: seq<nat>, net: Net, inp: seq<real>)
    requires NetShaped(desc, net) && |inp| <= desc[0]
    ensures |LoadReals(RealParts(net.vals[0]), inp)| == desc[0]
    ensures forall k :: 0 <= k < |desc| ==>
      RealParts(SampleVals(m, desc, net, inp)[k])
        == RealPass(m, desc, net.weights, net.biases, LoadReals(RealParts(net.vals[0]), inp), Layers(desc))[k]
  {
    var layer0 := LoadInputs(net.vals[0], inp, NumVars(desc));
    LoadInputsValues(net.vals[0], inp, NumVars(desc));
    RealPassIsRealParts(m, desc, net.weights, net.biases, layer0, Layers(desc));
  }

  /**
    Running the real pass again on the same input gives the same layers: the
    input layer it leaves is the one loading the input produces.
  */
  lemma RealPassRepeatable(m: Libm, desc: seq<nat>, weights: Weights, biases: Biases, layer0: seq<real>, inp: seq<real>)
    requires Shaped(desc, weights, biases) && |desc| > 0 && |layer0| == desc[0] && |inp| <= desc[0]
    ensures var once := RealPass(m, desc, weights, biases, LoadReals(layer0, inp), Layers(desc));
            RealPass(m, desc, weights, biases, LoadReals(once[0], inp), Layers(desc)) == once
  {
    LoadRealsIdempotent(layer0, inp);
  }
}
