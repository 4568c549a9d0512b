/**
 * The arithmetic that lib/network.js performs on its per-layer arrays,
 * stated as functions of values. The class in network.dfy runs the same
 * computations with loops over its fields and is proved equal to these.
 *
 * Layer l of a network of topology `layers` has layers[l] neurons. For
 * l >= 1, neuron n of layer l has a bias biases[l][n] and one weight
 * weights[l][n][c] per neuron c of layer l - 1. Layer 0 holds the input
 * and has no parameters; its slots in biases, weights and steps are empty.
 */
module Layers {
  import opened Activation
  import opened Derivative

  type Vector = seq<real>

  /** One row per neuron of a layer, one column per neuron of the layer before. */
  type Matrix = seq<Vector>

  /** The fixed settings the arithmetic depends on. */
  datatype Config = Config(layers: seq<nat>, func: Func, math: MathLib, learningRate: real, momentum: real)

  /** The state that training updates: weights, biases and the previous weight steps. */
  datatype Params = Params(weights: seq<Matrix>, biases: seq<Vector>, steps: seq<Matrix>)

  /** A training set: parallel sequences of input vectors and target vectors. */
  datatype Dataset = Dataset(inputs: seq<Vector>, targets: seq<Vector>)

  // ---------------------------------------------------------------- shapes

  /** One vector per layer, each as long as its layer (outputs, errors, gradients). */
  predicate VectorsFit(v: seq<Vector>, layers: seq<nat>)
  {
    |v| == |layers| && forall l {:trigger v[l]} :: 0 <= l < |layers| ==> |v[l]| == layers[l]
  }

  /** One bias per neuron of every layer but the first, whose slot is empty. */
  predicate BiasesFit(b: seq<Vector>, layers: seq<nat>)
  {
    |layers| >= 1 && |b| == |layers| && b[0] == [] &&
    forall l {:trigger b[l]} :: 1 <= l < |layers| ==> |b[l]| == layers[l]
  }

  /** A matrix with `rows` rows of `cols` entries each. */
  predicate MatrixFits(w: Matrix, rows: nat, cols: nat)
  {
    |w| == rows && forall n :: 0 <= n < rows ==> |w[n]| == cols
  }

  /** For every layer l but the first, a layers[l] x layers[l-1] matrix (weights, steps). */
  predicate MatricesFit(w: seq<Matrix>, layers: seq<nat>)
  {
    |layers| >= 1 && |w| == |layers| && w[0] == [] &&
    forall l {:trigger w[l]} :: 1 <= l < |layers| ==>
      |w[l]| == layers[l] && forall n :: 0 <= n < layers[l] ==> |w[l][n]| == layers[l - 1]
  }

  predicate ParamsFit(p: Params, layers: seq<nat>)
  {
    MatricesFit(p.weights, layers) && BiasesFit(p.biases, layers) && MatricesFit(p.steps, layers)
  }

  /** Every data sample has an input as long as layer 0 and a target as long as the last layer. */
  predicate DataFits(data: Dataset, layers: seq<nat>)
  {
    |layers| >= 2 && layers[|layers| - 1] > 0 &&
    |data.inputs| > 0 && |data.inputs| == |data.targets| &&
    (forall x {:trigger data.inputs[x]} :: 0 <= x < |data.inputs| ==> |data.inputs[x]| == layers[0]) &&
    (forall x {:trigger data.targets[x]} :: 0 <= x < |data.targets| ==> |data.targets[x]| == layers[|layers| - 1])
  }

  /** A vector of n zeros, as `new Array(n).fill(0)` builds it. */
  function Zeros(n: nat): (r: Vector)
    ensures |r| == n && forall i :: 0 <= i < n ==> r[i] == 0.0
  {
    seq(n, _ => 0.0)
  }

  /** A zero vector for every layer. */
  function ZeroVectors(layers: seq<nat>): (r: seq<Vector>)
    ensures VectorsFit(r, layers)
    ensures forall l :: 0 <= l < |layers| ==> r[l] == Zeros(layers[l])
  {
    seq(|layers|, l requires 0 <= l < |layers| => Zeros(layers[l]))
  }

  /** A rows x cols matrix of zeros. */
  function ZeroMatrix(rows: nat, cols: nat): (r: Matrix)
    ensures |r| == rows && forall n :: 0 <= n < rows ==> r[n] == Zeros(cols)
  {
    seq(rows, _ => Zeros(cols))
  }

  /** A zero matrix for every layer but the first. */
  function ZeroMatrices(layers: seq<nat>): (r: seq<Matrix>)
    requires |layers| >= 1
    ensures MatricesFit(r, layers)
    ensures forall l {:trigger r[l]} :: 1 <= l < |layers| ==> r[l] == ZeroMatrix(layers[l], layers[l - 1])
  {
    seq(|layers|, l requires 0 <= l < |layers| => ZeroLayer(layers, l))
  }

  /** The zero matrix of layer l: none for the input layer. */
  function ZeroLayer(layers: seq<nat>, l: nat): Matrix
    requires l < |layers|
  {
    if l == 0 then [] else ZeroMatrix(layers[l], layers[l - 1])
  }

  // ---------------------------------------------------------- forward pass

  /** Sum over c < k of x[c] * w[c], accumulated in increasing c. */
  function Dot(w: Vector, x: Vector, k: nat): real
    requires k <= |w| && k <= |x|
  {
    if k == 0 then 0.0 else Dot(w, x, k - 1) + x[k - 1] * w[k - 1]
  }

  /** One more term of the sum, in the order the source's loop adds it. */
  lemma DotNext(w: Vector, x: Vector, k: nat)
    requires k < |w| && k < |x|
    ensures Dot(w, x, k + 1) == Dot(w, x, k) + x[k] * w[k]
  {
  }

  /** A neuron's output: the activation of its bias plus its weighted inputs. */
  function Neuron(c: Config, w: Vector, bias: real, x: Vector): real
    requires |w| <= |x|
  {
    Apply(c.func, c.math, bias + Dot(w, x, |w|))
  }

  /** The outputs of a layer with weight rows W and biases b, fed the vector x. */
  function LayerOut(c: Config, W: Matrix, b: Vector, x: Vector): (r: Vector)
    requires |W| == |b| && forall n :: 0 <= n < |W| ==> |W[n]| <= |x|
    ensures |r| == |b|
    ensures forall n :: 0 <= n < |r| ==> r[n] == Neuron(c, W[n], b[n], x)
  {
    seq(|b|, n requires 0 <= n < |b| => Neuron(c, W[n], b[n], x))
  }

  /** The outputs of layer l when the network is fed `input`: layer 0 holds the input, each later layer is fed the one before. */
  function Activations(c: Config, W: seq<Matrix>, B: seq<Vector>, input: Vector, l: nat): (r: Vector)
    requires MatricesFit(W, c.layers) && BiasesFit(B, c.layers) && |input| == c.layers[0]
    requires l < |c.layers|
    ensures |r| == c.layers[l]
    decreases l
  {
    if l == 0 then input
    else LayerOut(c, W[l], B[l], Activations(c, W, B, input, l - 1))
  }

  /** The outputs of every layer after a forward pass on `input`. */
  function Forward(c: Config, W: seq<Matrix>, B: seq<Vector>, input: Vector): (r: seq<Vector>)
    requires MatricesFit(W, c.layers) && BiasesFit(B, c.layers) && |input| == c.layers[0]
    ensures VectorsFit(r, c.layers)
    ensures forall l :: 0 <= l < |c.layers| ==> r[l] == Activations(c, W, B, input, l)
  {
    seq(|c.layers|, l requires 0 <= l < |c.layers| => Activations(c, W, B, input, l))
  }

  /** Each layer of the forward pass is computed from the one before it. */
  lemma ForwardLayer(c: Config, W: seq<Matrix>, B: seq<Vector>, input: Vector, l: nat)
    requires MatricesFit(W, c.layers) && BiasesFit(B, c.layers) && |input| == c.layers[0]
    requires 1 <= l < |c.layers|
    ensures Forward(c, W, B, input)[0] == input
    ensures Forward(c, W, B, input)[l] == LayerOut(c, W[l], B[l], Forward(c, W, B, input)[l - 1])
  {
  }

  /**
   * The forward pass leaves the input in layer 0 and sets neuron n of each
   * later layer l to Neuron(weights[l][n], biases[l][n], outputs[l-1]), that
   * is act(biases[l][n] + sum over c of weights[l][n][c] * outputs[l-1][c]).
   */
  lemma ForwardNeuron(c: Config, W: seq<Matrix>, B: seq<Vector>, input: Vector, l: nat, n: nat)
    requires MatricesFit(W, c.layers) && BiasesFit(B, c.layers) && |input| == c.layers[0]
    requires 1 <= l < |c.layers| && n < c.layers[l]
    ensures Forward(c, W, B, input)[0] == input
    ensures Forward(c, W, B, input)[l][n] == Neuron(c, W[l][n], B[l][n], Forward(c, W, B, input)[l - 1])
  {
    ForwardLayer(c, W, B, input, l);
  }

  /** The first l layers of `outs` are those of the forward pass on `input`: what predict's layer loop keeps. */
  predicate ForwardPrefix(c: Config, W: seq<Matrix>, B: seq<Vector>, input: Vector, outs: seq<Vector>, l: nat)
  {
    MatricesFit(W, c.layers) && BiasesFit(B, c.layers) && |input| == c.layers[0] &&
    VectorsFit(outs, c.layers) && l <= |c.layers| &&
    forall j :: 0 <= j < l ==> outs[j] == Activations(c, W, B, input, j)
  }

  /** Storing the input in layer 0 starts the forward pass. */
  lemma ForwardPrefixStart(c: Config, W: seq<Matrix>, B: seq<Vector>, input: Vector, outs: seq<Vector>)
    requires MatricesFit(W, c.layers) && BiasesFit(B, c.layers) && |input| == c.layers[0]
    requires VectorsFit(outs, c.layers)
    ensures ForwardPrefix(c, W, B, input, outs[0 := input], 1)
  {
  }

  /** Storing layer l's output, computed from layer l - 1, extends the prefix by one layer. */
  lemma ForwardPrefixNext(c: Config, W: seq<Matrix>, B: seq<Vector>, input: Vector, outs: seq<Vector>, l: nat)
    requires ForwardPrefix(c, W, B, input, outs, l) && 1 <= l < |c.layers|
    ensures ForwardPrefix(c, W, B, input, outs[l := LayerOut(c, W[l], B[l], outs[l - 1])], l + 1)
  {
  }

  /** A prefix covering every layer is the whole forward pass. */
  lemma ForwardPrefixDone(c: Config, W: seq<Matrix>, B: seq<Vector>, input: Vector, outs: seq<Vector>)
    requires ForwardPrefix(c, W, B, input, outs, |c.layers|)
    ensures outs == Forward(c, W, B, input)
  {
  }

  /** A weighted sum over all-zero weights is 0, whatever the inputs. */
  lemma {:induction false} DotOfZeros(w: Vector, x: Vector, k: nat)
    requires k <= |w| && k <= |x|
    requires forall i :: 0 <= i < |w| ==> w[i] == 0.0
    ensures Dot(w, x, k) == 0.0
  {
    if k > 0 {
      DotOfZeros(w, x, k - 1);
    }
  }

  /** A neuron whose bias and weights are all 0 outputs act(0). */
  lemma ZeroNeuron(c: Config, w: Vector, bias: real, x: Vector)
    requires |w| <= |x| && bias == 0.0 && forall i :: 0 <= i < |w| ==> w[i] == 0.0
    ensures Neuron(c, w, bias, x) == Apply(c.func, c.math, 0.0)
  {
    DotOfZeros(w, x, |w|);
  }

  /** Every weight and every bias of the network is 0. */
  predicate ZeroNetwork(W: seq<Matrix>, B: seq<Vector>, layers: seq<nat>)
    requires MatricesFit(W, layers) && BiasesFit(B, layers)
  {
    (forall l, n {:trigger B[l][n]} :: 1 <= l < |layers| && 0 <= n < layers[l] ==> B[l][n] == 0.0) &&
    (forall l, n, i {:trigger W[l][n][i]} :: 1 <= l < |layers| && 0 <= n < layers[l] && 0 <= i < layers[l - 1] ==>
       W[l][n][i] == 0.0)
  }

  /** With all weights and biases 0, every neuron past the input layer outputs act(0), whatever the input. */
  lemma ForwardZeroNetwork(c: Config, W: seq<Matrix>, B: seq<Vector>, input: Vector)
    requires MatricesFit(W, c.layers) && BiasesFit(B, c.layers) && |input| == c.layers[0]
    requires ZeroNetwork(W, B, c.layers)
    ensures forall l, n :: 1 <= l < |c.layers| && 0 <= n < c.layers[l] ==>
              Forward(c, W, B, input)[l][n] == Apply(c.func, c.math, 0.0)
  {
    var out := Forward(c, W, B, input);
    forall l, n | 1 <= l < |c.layers| && 0 <= n < c.layers[l]
      ensures out[l][n] == Apply(c.func, c.math, 0.0)
    {
      ForwardNeuron(c, W, B, input, l, n);
      ZeroNeuron(c, W[l][n], B[l][n], out[l - 1]);
    }
  }

  // --------------------------------------------------------- backward pass

  /** Sum over i < k of g[i] * W[i][n]: the error flowing back into neuron n of the layer below W. */
  function BackSum(g: Vector, W: Matrix, n: nat, k: nat): real
    requires k <= |g| && k <= |W| && forall i :: 0 <= i < k ==> n < |W[i]|
  {
    if k == 0 then 0.0 else BackSum(g, W, n, k - 1) + g[k - 1] * W[k - 1][n]
  }

  /** One more term of the sum, in the order the source's loop adds it. */
  lemma BackSumNext(g: Vector, W: Matrix, n: nat, k: nat)
    requires k < |g| && k < |W| && forall i :: 0 <= i <= k ==> n < |W[i]|
    ensures BackSum(g, W, n, k + 1) == BackSum(g, W, n, k) + g[k] * W[k][n]
  {
  }

  /** The error and gradient vectors of one layer. */
  datatype Delta = Delta(errors: Vector, gradients: Vector)

  /** The output layer's errors: target minus output, neuron by neuron. */
  function OutputErrors(target: Vector, out: Vector): (r: Vector)
    requires |target| == |out|
    ensures |r| == |out| && forall n :: 0 <= n < |out| ==> r[n] == target[n] - out[n]
  {
    seq(|out|, n requires 0 <= n < |out| => target[n] - out[n])
  }

  /** A hidden layer's errors: the next layer's gradients g sent back through its weight rows Wnext. */
  function HiddenErrors(g: Vector, Wnext: Matrix, size: nat): (r: Vector)
    requires |Wnext| == |g| && forall i :: 0 <= i < |g| ==> |Wnext[i]| == size
    ensures |r| == size && forall n :: 0 <= n < size ==> r[n] == BackSum(g, Wnext, n, |g|)
  {
    seq(size, n requires 0 <= n < size => BackSum(g, Wnext, n, |g|))
  }

  /** The gradient of a neuron with error e and output y: e times the slope of f at y. */
  function Gradient(f: Func, e: real, y: real): real
  {
    e * Derive(f, y)
  }

  /** A layer's gradients: each error times the slope of the activation at the neuron's output. */
  function LayerGradients(f: Func, e: Vector, out: Vector): (r: Vector)
    requires |e| == |out|
    ensures |r| == |e| && forall n :: 0 <= n < |e| ==> r[n] == Gradient(f, e[n], out[n])
  {
    seq(|e|, n requires 0 <= n < |e| => Gradient(f, e[n], out[n]))
  }

  /**
   * The errors and gradients of layer l. The last layer's error is
   * target - output; a lower layer's error is the next layer's gradients
   * sent back through that layer's weights, so it needs layer l + 1 first.
   */
  function DeltaAt(c: Config, outs: seq<Vector>, W: seq<Matrix>, target: Vector, l: nat): (d: Delta)
    requires VectorsFit(outs, c.layers) && MatricesFit(W, c.layers) && |target| == c.layers[|c.layers| - 1]
    requires l < |c.layers|
    ensures |d.errors| == c.layers[l] && |d.gradients| == c.layers[l]
    decreases |c.layers| - l
  {
    var e :=
      if l == |c.layers| - 1 then OutputErrors(target, outs[l])
      else HiddenErrors(DeltaAt(c, outs, W, target, l + 1).gradients, W[l + 1], c.layers[l]);
    Delta(e, LayerGradients(c.func, e, outs[l]))
  }

  /** The errors of every layer after backpropagating `target`. */
  function Errors(c: Config, outs: seq<Vector>, W: seq<Matrix>, target: Vector): (r: seq<Vector>)
    requires VectorsFit(outs, c.layers) && MatricesFit(W, c.layers) && |target| == c.layers[|c.layers| - 1]
    ensures VectorsFit(r, c.layers)
  {
    seq(|c.layers|, l requires 0 <= l < |c.layers| => DeltaAt(c, outs, W, target, l).errors)
  }

  /** The gradients of every layer after backpropagating `target`. */
  function Gradients(c: Config, outs: seq<Vector>, W: seq<Matrix>, target: Vector): (r: seq<Vector>)
    requires VectorsFit(outs, c.layers) && MatricesFit(W, c.layers) && |target| == c.layers[|c.layers| - 1]
    ensures VectorsFit(r, c.layers)
  {
    seq(|c.layers|, l requires 0 <= l < |c.layers| => DeltaAt(c, outs, W, target, l).gradients)
  }

  /** The output layer's error of neuron n is target[n] - output[n]. */
  lemma OutputError(c: Config, outs: seq<Vector>, W: seq<Matrix>, target: Vector, n: nat)
    requires VectorsFit(outs, c.layers) && MatricesFit(W, c.layers) && |target| == c.layers[|c.layers| - 1]
    requires n < c.layers[|c.layers| - 1]
    ensures Errors(c, outs, W, target)[|c.layers| - 1][n] == target[n] - outs[|c.layers| - 1][n]
  {
    var last := |c.layers| - 1;
    assert Errors(c, outs, W, target)[last] == OutputErrors(target, outs[last]);
  }

  /**
   * A hidden layer's error of neuron n sums gradients[l+1][i] * weights[l+1][i][n]
   * over the neurons i of the next layer.
   */
  lemma HiddenError(c: Config, outs: seq<Vector>, W: seq<Matrix>, target: Vector, l: nat, n: nat)
    requires VectorsFit(outs, c.layers) && MatricesFit(W, c.layers) && |target| == c.layers[|c.layers| - 1]
    requires l < |c.layers| - 1 && n < c.layers[l]
    ensures Errors(c, outs, W, target)[l][n] ==
            BackSum(Gradients(c, outs, W, target)[l + 1], W[l + 1], n, c.layers[l + 1])
  {
    hide OutputErrors, LayerGradients, HiddenErrors, BackSum;
    var g := DeltaAt(c, outs, W, target, l + 1).gradients;
    assert Gradients(c, outs, W, target)[l + 1] == g;
    assert DeltaAt(c, outs, W, target, l).errors == HiddenErrors(g, W[l + 1], c.layers[l]);
    assert Errors(c, outs, W, target)[l] == DeltaAt(c, outs, W, target, l).errors;
  }

  /** Within one layer's delta, each gradient is the error times the slope of the activation at the output. */
  lemma DeltaGradient(c: Config, outs: seq<Vector>, W: seq<Matrix>, target: Vector, l: nat, n: nat)
    requires VectorsFit(outs, c.layers) && MatricesFit(W, c.layers) && |target| == c.layers[|c.layers| - 1]
    requires l < |c.layers| && n < c.layers[l]
    ensures DeltaAt(c, outs, W, target, l).gradients[n] ==
            Gradient(c.func, DeltaAt(c, outs, W, target, l).errors[n], outs[l][n])
  {
    var d := DeltaAt(c, outs, W, target, l);
    assert d.gradients == LayerGradients(c.func, d.errors, outs[l]);
  }

  /** Every gradient is the neuron's error times the slope of the activation at its output. */
  lemma GradientEntry(c: Config, outs: seq<Vector>, W: seq<Matrix>, target: Vector, l: nat, n: nat)
    requires VectorsFit(outs, c.layers) && MatricesFit(W, c.layers) && |target| == c.layers[|c.layers| - 1]
    requires l < |c.layers| && n < c.layers[l]
    ensures Gradients(c, outs, W, target)[l][n] ==
            Gradient(c.func, Errors(c, outs, W, target)[l][n], outs[l][n])
  {
    var d := DeltaAt(c, outs, W, target, l);
    DeltaGradient(c, outs, W, target, l, n);
    assert Errors(c, outs, W, target)[l] == d.errors;
    assert Gradients(c, outs, W, target)[l] == d.gradients;
  }

  /**
   * What backPropogate's descending layer loop keeps: every layer above l
   * already holds its final errors and gradients.
   */
  predicate DeltaSuffix(c: Config, outs: seq<Vector>, W: seq<Matrix>, target: Vector,
                        errs: seq<Vector>, grads: seq<Vector>, l: int)
  {
    MatricesFit(W, c.layers) && VectorsFit(outs, c.layers) && |target| == c.layers[|c.layers| - 1] &&
    VectorsFit(errs, c.layers) && VectorsFit(grads, c.layers) && -1 <= l < |c.layers| &&
    forall j :: l < j < |c.layers| ==>
      errs[j] == DeltaAt(c, outs, W, target, j).errors && grads[j] == DeltaAt(c, outs, W, target, j).gradients
  }

  /**
   * Storing layer l's errors, computed from the gradients already stored for
   * layer l + 1, and its gradients extends the suffix down to layer l.
   */
  lemma DeltaSuffixNext(c: Config, outs: seq<Vector>, W: seq<Matrix>, target: Vector,
                        errs: seq<Vector>, grads: seq<Vector>, l: nat, e: Vector, g: Vector)
    requires DeltaSuffix(c, outs, W, target, errs, grads, l) && l < |c.layers|
    requires l == |c.layers| - 1 ==> e == OutputErrors(target, outs[l])
    requires l < |c.layers| - 1 ==> e == HiddenErrors(grads[l + 1], W[l + 1], c.layers[l])
    requires g == LayerGradients(c.func, e, outs[l])
    ensures DeltaSuffix(c, outs, W, target, errs[l := e], grads[l := g], l - 1)
  {
    assert DeltaAt(c, outs, W, target, l) == Delta(e, g);
  }

  /** A suffix reaching below layer 0 is the whole backward pass. */
  lemma DeltaSuffixDone(c: Config, outs: seq<Vector>, W: seq<Matrix>, target: Vector,
                        errs: seq<Vector>, grads: seq<Vector>)
    requires DeltaSuffix(c, outs, W, target, errs, grads, -1)
    ensures errs == Errors(c, outs, W, target) && grads == Gradients(c, outs, W, target)
  {
  }

  /** Errors sent back from all-zero gradients sum to 0, whatever the weights. */
  lemma {:induction false} BackSumOfZeros(g: Vector, W: Matrix, n: nat, k: nat)
    requires k <= |g| && k <= |W| && forall i :: 0 <= i < k ==> n < |W[i]|
    requires forall i :: 0 <= i < |g| ==> g[i] == 0.0
    ensures BackSum(g, W, n, k) == 0.0
  {
    if k > 0 {
      BackSumOfZeros(g, W, n, k - 1);
    }
  }

  /** When the output already equals the target, every error and every gradient of layer l and above is 0. */
  lemma {:induction false} PerfectFitDeltaAt(c: Config, outs: seq<Vector>, W: seq<Matrix>, target: Vector, l: nat)
    requires VectorsFit(outs, c.layers) && MatricesFit(W, c.layers) && |target| == c.layers[|c.layers| - 1]
    requires l < |c.layers| && target == outs[|c.layers| - 1]
    ensures forall n :: 0 <= n < c.layers[l] ==>
              DeltaAt(c, outs, W, target, l).errors[n] == 0.0 &&
              DeltaAt(c, outs, W, target, l).gradients[n] == 0.0
    decreases |c.layers| - l
  {
    var d := DeltaAt(c, outs, W, target, l);
    if l < |c.layers| - 1 {
      PerfectFitDeltaAt(c, outs, W, target, l + 1);
      var g := DeltaAt(c, outs, W, target, l + 1).gradients;
      forall n | 0 <= n < c.layers[l]
        ensures d.errors[n] == 0.0
      {
        BackSumOfZeros(g, W[l + 1], n, |g|);
      }
    }
  }

  /** When the output already equals the target, backpropagation yields all-zero errors and gradients. */
  lemma PerfectFitZeroDeltas(c: Config, outs: seq<Vector>, W: seq<Matrix>, target: Vector)
    requires VectorsFit(outs, c.layers) && MatricesFit(W, c.layers) && |target| == c.layers[|c.layers| - 1]
    requires target == outs[|c.layers| - 1]
    ensures Errors(c, outs, W, target) == ZeroVectors(c.layers)
    ensures Gradients(c, outs, W, target) == ZeroVectors(c.layers)
  {
    var errs, grads, zeros := Errors(c, outs, W, target), Gradients(c, outs, W, target), ZeroVectors(c.layers);
    forall l | 0 <= l < |c.layers|
      ensures errs[l] == zeros[l] && grads[l] == zeros[l]
    {
      PerfectFitDeltaAt(c, outs, W, target, l);
    }
  }

  // ------------------------------------------------------ gradient descent

  /** The momentum rule: the new step is lr * gradient * input plus momentum times the previous step. */
  function NewStep(c: Config, gradient: real, input: real, previous: real): real
  {
    c.learningRate * gradient * input + c.momentum * previous
  }

  /** The new steps of one neuron with the given gradient, inputs x and previous steps s. */
  function RowSteps(c: Config, gradient: real, x: Vector, s: Vector): (r: Vector)
    requires |s| == |x|
    ensures |r| == |x| && forall i :: 0 <= i < |x| ==> r[i] == NewStep(c, gradient, x[i], s[i])
  {
    seq(|x|, i requires 0 <= i < |x| => NewStep(c, gradient, x[i], s[i]))
  }

  /** The new steps of one layer with gradients g, inputs x and previous steps S. */
  function LayerSteps(c: Config, g: Vector, x: Vector, S: Matrix): (r: Matrix)
    requires MatrixFits(S, |g|, |x|)
    ensures |r| == |g|
    ensures forall n {:trigger r[n]} :: 0 <= n < |g| ==> |r[n]| == |x| && r[n] == RowSteps(c, g[n], x, S[n])
    ensures forall n, i {:trigger r[n][i]} :: 0 <= n < |g| && 0 <= i < |x| ==> r[n][i] == NewStep(c, g[n], x[i], S[n][i])
  {
    seq(|g|, n requires 0 <= n < |g| => RowSteps(c, g[n], x, S[n]))
  }

  /** w + s, entry by entry. */
  function AddRow(w: Vector, s: Vector): (r: Vector)
    requires |w| == |s|
    ensures |r| == |w| && forall i :: 0 <= i < |w| ==> r[i] == w[i] + s[i]
  {
    seq(|w|, i requires 0 <= i < |w| => w[i] + s[i])
  }

  /** W + S, entry by entry. */
  function AddSteps(W: Matrix, S: Matrix): (r: Matrix)
    requires |W| == |S| && forall n :: 0 <= n < |W| ==> |W[n]| == |S[n]|
    ensures |r| == |W|
    ensures forall n {:trigger r[n]} :: 0 <= n < |W| ==> |r[n]| == |W[n]| && r[n] == AddRow(W[n], S[n])
    ensures forall n, i {:trigger r[n][i]} :: 0 <= n < |W| && 0 <= i < |W[n]| ==> r[n][i] == W[n][i] + S[n][i]
  {
    seq(|W|, n requires 0 <= n < |W| => AddRow(W[n], S[n]))
  }

  /** The new steps of layer l: none for the input layer. */
  function StepsAt(c: Config, outs: seq<Vector>, grads: seq<Vector>, S: seq<Matrix>, l: nat): Matrix
    requires MatricesFit(S, c.layers) && VectorsFit(outs, c.layers) && VectorsFit(grads, c.layers)
    requires l < |c.layers|
  {
    if l == 0 then [] else LayerSteps(c, grads[l], outs[l - 1], S[l])
  }

  /** Every stored step of layer l >= 1 is replaced by its new step. */
  function DescendSteps(c: Config, outs: seq<Vector>, grads: seq<Vector>, S: seq<Matrix>): (r: seq<Matrix>)
    requires MatricesFit(S, c.layers) && VectorsFit(outs, c.layers) && VectorsFit(grads, c.layers)
    ensures MatricesFit(r, c.layers)
    ensures forall l {:trigger r[l]} :: 1 <= l < |c.layers| ==> r[l] == LayerSteps(c, grads[l], outs[l - 1], S[l])
  {
    seq(|c.layers|, l requires 0 <= l < |c.layers| => StepsAt(c, outs, grads, S, l))
  }

  /** Every weight of layer l >= 1 gains its new step. */
  function DescendWeights(W: seq<Matrix>, steps: seq<Matrix>, layers: seq<nat>): (r: seq<Matrix>)
    requires MatricesFit(W, layers) && MatricesFit(steps, layers)
    ensures MatricesFit(r, layers)
    ensures forall l {:trigger r[l]} :: 1 <= l < |layers| ==> r[l] == AddSteps(W[l], steps[l])
  {
    seq(|layers|, l requires 0 <= l < |layers| => if l == 0 then [] else AddSteps(W[l], steps[l]))
  }

  /** The bias rule: a bias gains lr * gradient, with no momentum term. */
  function NewBias(c: Config, bias: real, gradient: real): real
  {
    bias + c.learningRate * gradient
  }

  /** The new biases of one layer. */
  function LayerBiases(c: Config, g: Vector, b: Vector): (r: Vector)
    requires |g| == |b|
    ensures |r| == |b| && forall n :: 0 <= n < |b| ==> r[n] == NewBias(c, b[n], g[n])
  {
    seq(|b|, n requires 0 <= n < |b| => NewBias(c, b[n], g[n]))
  }

  /** Every bias of layer l >= 1 is replaced by its new value. */
  function DescendBiases(c: Config, grads: seq<Vector>, B: seq<Vector>): (r: seq<Vector>)
    requires BiasesFit(B, c.layers) && VectorsFit(grads, c.layers)
    ensures BiasesFit(r, c.layers)
    ensures forall l {:trigger r[l]} :: 1 <= l < |c.layers| ==> r[l] == LayerBiases(c, grads[l], B[l])
  {
    seq(|c.layers|, l requires 0 <= l < |c.layers| => if l == 0 then [] else LayerBiases(c, grads[l], B[l]))
  }

  /** One gradient-descent update of the parameters, given the outputs and gradients of the last passes. */
  function Descend(c: Config, outs: seq<Vector>, grads: seq<Vector>, p: Params): (r: Params)
    requires ParamsFit(p, c.layers) && VectorsFit(outs, c.layers) && VectorsFit(grads, c.layers)
    ensures ParamsFit(r, c.layers)
  {
    var steps := DescendSteps(c, outs, grads, p.steps);
    Params(DescendWeights(p.weights, steps, c.layers), DescendBiases(c, grads, p.biases), steps)
  }

  /** The update of a single weight, step and bias. */
  lemma DescendEntry(c: Config, outs: seq<Vector>, grads: seq<Vector>, p: Params, l: nat, n: nat, i: nat)
    requires ParamsFit(p, c.layers) && VectorsFit(outs, c.layers) && VectorsFit(grads, c.layers)
    requires 1 <= l < |c.layers| && n < c.layers[l] && i < c.layers[l - 1]
    ensures Descend(c, outs, grads, p).steps[l][n][i] ==
            c.learningRate * grads[l][n] * outs[l - 1][i] + c.momentum * p.steps[l][n][i]
    ensures Descend(c, outs, grads, p).weights[l][n][i] ==
            p.weights[l][n][i] + Descend(c, outs, grads, p).steps[l][n][i]
    ensures Descend(c, outs, grads, p).biases[l][n] == p.biases[l][n] + c.learningRate * grads[l][n]
  {
  }

  /**
   * What gradientDescent's layer loop keeps, with p the parameters before the
   * update and q the ones being updated: the layers below l are updated and
   * the layers from l on are untouched.
   */
  predicate DescendPrefix(c: Config, outs: seq<Vector>, grads: seq<Vector>, p: Params, q: Params, l: nat)
  {
    ParamsFit(p, c.layers) && VectorsFit(outs, c.layers) && VectorsFit(grads, c.layers) &&
    ParamsFit(q, c.layers) && 1 <= l <= |c.layers| &&
    (forall j :: 1 <= j < l ==>
       q.steps[j] == LayerSteps(c, grads[j], outs[j - 1], p.steps[j]) &&
       q.weights[j] == AddSteps(p.weights[j], q.steps[j]) &&
       q.biases[j] == LayerBiases(c, grads[j], p.biases[j])) &&
    (forall j :: l <= j < |c.layers| ==> q.weights[j] == p.weights[j] && q.biases[j] == p.biases[j] && q.steps[j] == p.steps[j])
  }

  /** Before the loop nothing is updated. */
  lemma DescendPrefixStart(c: Config, outs: seq<Vector>, grads: seq<Vector>, p: Params)
    requires ParamsFit(p, c.layers) && VectorsFit(outs, c.layers) && VectorsFit(grads, c.layers) && |c.layers| >= 1
    ensures DescendPrefix(c, outs, grads, p, p, 1)
  {
  }

  /** Storing layer l's new steps, weights and biases extends the prefix by one layer. */
  lemma DescendPrefixNext(c: Config, outs: seq<Vector>, grads: seq<Vector>, p: Params, q: Params, l: nat,
                          w: Matrix, b: Vector, s: Matrix)
    requires DescendPrefix(c, outs, grads, p, q, l) && l < |c.layers|
    requires s == LayerSteps(c, grads[l], outs[l - 1], p.steps[l])
    requires w == AddSteps(p.weights[l], s)
    requires b == LayerBiases(c, grads[l], p.biases[l])
    ensures DescendPrefix(c, outs, grads, p, Params(q.weights[l := w], q.biases[l := b], q.steps[l := s]), l + 1)
  {
  }

  /** A prefix covering every layer is the whole update. */
  lemma DescendPrefixDone(c: Config, outs: seq<Vector>, grads: seq<Vector>, p: Params, q: Params)
    requires DescendPrefix(c, outs, grads, p, q, |c.layers|)
    ensures q == Descend(c, outs, grads, p)
  {
  }

  /** Every stored step is 0. */
  predicate ZeroSteps(S: seq<Matrix>, layers: seq<nat>)
    requires MatricesFit(S, layers)
  {
    forall l, n, i {:trigger S[l][n][i]} :: 1 <= l < |layers| && 0 <= n < layers[l] && 0 <= i < layers[l - 1] ==>
      S[l][n][i] == 0.0
  }

  /** Every gradient of a layer with parameters is 0. */
  predicate ZeroGradients(grads: seq<Vector>, layers: seq<nat>)
    requires VectorsFit(grads, layers)
  {
    forall l, n :: 1 <= l < |layers| && 0 <= n < layers[l] ==> grads[l][n] == 0.0
  }

  /** With all gradients and all previous steps 0, an update changes nothing. */
  lemma DescendIdle(c: Config, outs: seq<Vector>, grads: seq<Vector>, p: Params)
    requires ParamsFit(p, c.layers) && VectorsFit(outs, c.layers) && VectorsFit(grads, c.layers)
    requires ZeroGradients(grads, c.layers) && ZeroSteps(p.steps, c.layers)
    ensures Descend(c, outs, grads, p) == p
  {
    var q := Descend(c, outs, grads, p);
    forall l | 1 <= l < |c.layers|
      ensures q.weights[l] == p.weights[l] && q.steps[l] == p.steps[l] && q.biases[l] == p.biases[l]
    {
      forall n | 0 <= n < c.layers[l]
        ensures q.weights[l][n] == p.weights[l][n] && q.steps[l][n] == p.steps[l][n]
      {
        forall i | 0 <= i < c.layers[l - 1]
          ensures q.weights[l][n][i] == p.weights[l][n][i] && q.steps[l][n][i] == p.steps[l][n][i]
        {
          DescendEntry(c, outs, grads, p, l, n, i);
        }
      }
    }
  }

  /**
   * Momentum: repeating an update with the same positive raw step
   * lr * gradient * input, starting from a zero step, makes the second
   * step strictly larger than the first when the momentum is positive.
   */
  lemma MomentumGrows(c: Config, gradient: real, input: real)
    requires c.momentum > 0.0 && c.learningRate * gradient * input > 0.0
    ensures NewStep(c, gradient, input, NewStep(c, gradient, input, 0.0)) > NewStep(c, gradient, input, 0.0)
  {
  }

  // -------------------------------------------------------------- training

  /** Sum over i < k of e[i]^2, folded from 0 as the source's reduce does. */
  function SquaredSum(e: Vector, k: nat): (r: real)
    requires k <= |e|
    ensures r >= 0.0
  {
    if k == 0 then 0.0 else SquaredSum(e, k - 1) + e[k - 1] * e[k - 1]
  }

  /** The mean of the squared entries of a non-empty vector. */
  function MeanSquare(e: Vector): (r: real)
    requires |e| > 0
    ensures r >= 0.0
  {
    SquaredSum(e, |e|) / |e| as real
  }

  /** The squares of the first k entries of a zero vector sum to 0. */
  lemma {:induction false} SquaredSumOfZeros(e: Vector, k: nat)
    requires k <= |e| && forall i :: 0 <= i < |e| ==> e[i] == 0.0
    ensures SquaredSum(e, k) == 0.0
  {
    if k > 0 {
      SquaredSumOfZeros(e, k - 1);
    }
  }

  /** The mean square of a vector of zeros is 0. */
  lemma MeanSquareOfZeros(e: Vector)
    requires |e| > 0 && forall i :: 0 <= i < |e| ==> e[i] == 0.0
    ensures MeanSquare(e) == 0.0
  {
    SquaredSumOfZeros(e, |e|);
  }

  /**
   * Training on one sample: a forward pass, a backward pass against the
   * target, and an update. Yields the new parameters and the mean squared
   * error of the output layer.
   */
  function Sample(c: Config, p: Params, input: Vector, target: Vector): (r: (Params, real))
    requires |c.layers| >= 2 && c.layers[|c.layers| - 1] > 0 && ParamsFit(p, c.layers)
    requires |input| == c.layers[0] && |target| == c.layers[|c.layers| - 1]
    ensures ParamsFit(r.0, c.layers) && r.1 >= 0.0
  {
    var outs := Forward(c, p.weights, p.biases, input);
    var errs := Errors(c, outs, p.weights, target);
    var grads := Gradients(c, outs, p.weights, target);
    (Descend(c, outs, grads, p), MeanSquare(errs[|c.layers| - 1]))
  }

  /**
   * A sample the network already fits exactly, with no momentum left over,
   * leaves the parameters as they are and contributes no error.
   */
  lemma PerfectFitFixedPoint(c: Config, p: Params, input: Vector, target: Vector)
    requires |c.layers| >= 2 && c.layers[|c.layers| - 1] > 0 && ParamsFit(p, c.layers)
    requires |input| == c.layers[0] && |target| == c.layers[|c.layers| - 1]
    requires Forward(c, p.weights, p.biases, input)[|c.layers| - 1] == target
    requires ZeroSteps(p.steps, c.layers)
    ensures Sample(c, p, input, target) == (p, 0.0)
  {
    var outs := Forward(c, p.weights, p.biases, input);
    var errs := Errors(c, outs, p.weights, target);
    var grads := Gradients(c, outs, p.weights, target);
    var last := errs[|c.layers| - 1];
    PerfectFitZeroDeltas(c, outs, p.weights, target);
    assert ZeroGradients(grads, c.layers);
    assert forall i :: 0 <= i < |last| ==> last[i] == 0.0;
    DescendIdle(c, outs, grads, p);
    MeanSquareOfZeros(last);
    SampleParts(c, p, input, target);
  }

  /** The two halves of a training step on one sample, named. */
  lemma SampleParts(c: Config, p: Params, input: Vector, target: Vector)
    requires |c.layers| >= 2 && c.layers[|c.layers| - 1] > 0 && ParamsFit(p, c.layers)
    requires |input| == c.layers[0] && |target| == c.layers[|c.layers| - 1]
    ensures var outs := Forward(c, p.weights, p.biases, input);
            Sample(c, p, input, target).0 == Descend(c, outs, Gradients(c, outs, p.weights, target), p)
    ensures var outs := Forward(c, p.weights, p.biases, input);
            Sample(c, p, input, target).1 == MeanSquare(Errors(c, outs, p.weights, target)[|c.layers| - 1])
  {
    hide Forward, Errors, Gradients, Descend, MeanSquare;
  }

  /**
   * What training on one sample leaves in the network's caches: the forward
   * pass of `input` through p, and the errors and gradients of `target`
   * against that pass.
   */
  predicate SampleCaches(c: Config, p: Params, input: Vector, target: Vector,
                         outs: seq<Vector>, errs: seq<Vector>, grads: seq<Vector>)
  {
    |c.layers| >= 2 && ParamsFit(p, c.layers) &&
    |input| == c.layers[0] && |target| == c.layers[|c.layers| - 1] &&
    outs == Forward(c, p.weights, p.biases, input) &&
    errs == Errors(c, outs, p.weights, target) &&
    grads == Gradients(c, outs, p.weights, target)
  }

  /** The forward pass and the errors and gradients through it establish `SampleCaches`. */
  lemma SampleCachesIntro(c: Config, p: Params, input: Vector, target: Vector,
                          outs: seq<Vector>, errs: seq<Vector>, grads: seq<Vector>)
    requires |c.layers| >= 2 && ParamsFit(p, c.layers)
    requires |input| == c.layers[0] && |target| == c.layers[|c.layers| - 1]
    requires outs == Forward(c, p.weights, p.biases, input)
    requires errs == Errors(c, outs, p.weights, target) && grads == Gradients(c, outs, p.weights, target)
    ensures SampleCaches(c, p, input, target, outs, errs, grads)
  {
  }

  /** Sample i of a fitting dataset fits the network. */
  lemma SampleFits(c: Config, data: Dataset, i: nat)
    requires DataFits(data, c.layers) && i < |data.inputs|
    ensures |data.inputs[i]| == c.layers[0] && |data.targets[i]| == c.layers[|c.layers| - 1]
  {
  }

  /** Training on the first k samples in order: the parameters after them and the sum of their errors. */
  function Pass(c: Config, p: Params, data: Dataset, k: nat): (r: (Params, real))
    requires ParamsFit(p, c.layers) && DataFits(data, c.layers) && k <= |data.inputs|
    ensures ParamsFit(r.0, c.layers) && r.1 >= 0.0
    decreases k
  {
    if k == 0 then (p, 0.0)
    else
      var before := Pass(c, p, data, k - 1);
      SampleFits(c, data, k - 1);
      var after := Sample(c, before.0, data.inputs[k - 1], data.targets[k - 1]);
      (after.0, before.1 + after.1)
  }

  /** One more sample extends a pass. */
  lemma PassNext(c: Config, p: Params, data: Dataset, k: nat)
    requires ParamsFit(p, c.layers) && DataFits(data, c.layers) && k < |data.inputs|
    ensures |data.inputs[k]| == c.layers[0] && |data.targets[k]| == c.layers[|c.layers| - 1]
    ensures Pass(c, p, data, k + 1).0 == Sample(c, Pass(c, p, data, k).0, data.inputs[k], data.targets[k]).0
    ensures Pass(c, p, data, k + 1).1 == Pass(c, p, data, k).1 + Sample(c, Pass(c, p, data, k).0, data.inputs[k], data.targets[k]).1
  {
    SampleFits(c, data, k);
  }

  /** total / count, which is never negative when total is not. */
  function Average(total: real, count: nat): (r: real)
    requires count > 0
    ensures total >= 0.0 ==> r >= 0.0
  {
    total / count as real
  }

  /**
   * k epochs of training: the parameters after them and the error of the
   * last epoch (the mean over samples of each sample's error), or 1 when
   * no epoch has run.
   */
  function Run(c: Config, p: Params, data: Dataset, k: nat): (r: (Params, real))
    requires ParamsFit(p, c.layers) && DataFits(data, c.layers)
    ensures ParamsFit(r.0, c.layers) && r.1 >= 0.0
    ensures k == 0 ==> r == (p, 1.0)
    decreases k
  {
    if k == 0 then (p, 1.0)
    else
      var epoch := Pass(c, Run(c, p, data, k - 1).0, data, |data.inputs|);
      (epoch.0, Average(epoch.1, |data.inputs|))
  }

  /** One more epoch extends a run. */
  lemma RunNext(c: Config, p: Params, data: Dataset, k: nat)
    requires ParamsFit(p, c.layers) && DataFits(data, c.layers)
    ensures Run(c, p, data, k + 1).0 == Pass(c, Run(c, p, data, k).0, data, |data.inputs|).0
    ensures Run(c, p, data, k + 1).1 == Average(Pass(c, Run(c, p, data, k).0, data, |data.inputs|).1, |data.inputs|)
  {
  }
}
