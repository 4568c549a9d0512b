/**
 * The NeuralNetwork class of lib/network.js. Its per-layer arrays are
 * sequence fields that the methods rebuild with the same nested loops as
 * the source; each method is proved to leave them equal to the functions
 * of layers.dfy.
 */
module Network {
  import opened Wrappers
  import opened Activation
  import opened Layers

  /**
   * The constructor's options object; a missing key is None. A hidden
   * size given as a single non-zero number n is passed as [n]:
   * `[inputs, n, outputs].flat()` and `[inputs, [n], outputs].flat()` build
   * the same topology. A single 0 is falsy and stands for a missing option.
   */
  datatype Options = Options(
    inputs: int,
    outputs: int,
    layers: Option<seq<int>>,
    learningRate: Option<real>,
    momentum: Option<real>,
    epochs: Option<int>,
    errorThreshold: Option<real>,
    activation: Option<string>)

  /** Why a network cannot be built: `new Array(size)` throws a RangeError for a negative size, and an activation name with no table entry. */
  datatype ConfigError = RangeError | UnknownActivation(name: string)

  /** The settings a network is built with once every option is resolved. */
  datatype Settings = Settings(
    layers: seq<nat>,
    func: Func,
    learningRate: real,
    momentum: real,
    epochs: int,
    errorThreshold: real)

  /** `option || fallback` for a number: a missing option and 0 are both falsy. */
  function OrReal(v: Option<real>, fallback: real): (r: real)
    ensures v.Some? && v.value != 0.0 ==> r == v.value
    ensures (v.None? || v.value == 0.0) ==> r == fallback
  {
    if v.Some? && v.value != 0.0 then v.value else fallback
  }

  /** `option || fallback` for an integer option. */
  function OrInt(v: Option<int>, fallback: int): (r: int)
    ensures v.Some? && v.value != 0 ==> r == v.value
    ensures (v.None? || v.value == 0) ==> r == fallback
  {
    if v.Some? && v.value != 0 then v.value else fallback
  }

  /** `opt.activation || 'sigmoid'`: a missing name and the empty string are both falsy. */
  function ActivationName(o: Options): (r: string)
    ensures o.activation.Some? && o.activation.value != "" ==> r == o.activation.value
    ensures (o.activation.None? || o.activation.value == "") ==> r == "sigmoid"
  {
    if o.activation.Some? && o.activation.value != "" then o.activation.value else "sigmoid"
  }

  /** `[inputs, layers || [3], outputs].flat()`: an empty hidden list is truthy and is kept. */
  function Topology(o: Options): (r: seq<int>)
    ensures o.layers.Some? ==> |r| == |o.layers.value| + 2 && r[1..|r| - 1] == o.layers.value
    ensures o.layers.None? ==> r == [o.inputs, 3, o.outputs]
    ensures r[0] == o.inputs && r[|r| - 1] == o.outputs
  {
    [o.inputs] + (if o.layers.Some? then o.layers.value else [3]) + [o.outputs]
  }

  /**
   * Resolves the options as the constructor does: the topology with its
   * default hidden layer, and every falsy number replaced by its default.
   * Building fails exactly when a layer size is negative or the activation
   * name is not in the table. Sizes are unbounded integers here, so the
   * RangeError that `new Array(n)` also throws for n >= 2^32 is not modelled.
   */
  function Configure(o: Options): (r: Result<Settings, ConfigError>)
    ensures r.Ok? <==>
              (forall i :: 0 <= i < |Topology(o)| ==> Topology(o)[i] >= 0) && Lookup(ActivationName(o)).Some?
    ensures (exists i :: 0 <= i < |Topology(o)| && Topology(o)[i] < 0) ==> r == Err(RangeError)
    ensures (forall i :: 0 <= i < |Topology(o)| ==> Topology(o)[i] >= 0) && Lookup(ActivationName(o)).None? ==>
              r == Err(UnknownActivation(ActivationName(o)))
    ensures r.Ok? ==>
              |r.value.layers| == |Topology(o)| &&
              (forall i :: 0 <= i < |Topology(o)| ==> r.value.layers[i] == Topology(o)[i]) &&
              Name(r.value.func) == ActivationName(o) &&
              r.value.learningRate == OrReal(o.learningRate, 0.3) &&
              r.value.momentum == OrReal(o.momentum, 0.1) &&
              r.value.epochs == OrInt(o.epochs, 20000) &&
              r.value.errorThreshold == OrReal(o.errorThreshold, 0.005)
  {
    var sizes := Topology(o);
    if exists i :: 0 <= i < |sizes| && sizes[i] < 0 then Err(RangeError)
    else
      match Lookup(ActivationName(o))
      case None => Err(UnknownActivation(ActivationName(o)))
      case Some(f) =>
        Ok(Settings(sizes, f, OrReal(o.learningRate, 0.3), OrReal(o.momentum, 0.1),
                    OrInt(o.epochs, 20000), OrReal(o.errorThreshold, 0.005)))
  }

  /**
   * The defaults: without a `layers` option the single hidden layer has 3
   * neurons, and a learning rate, momentum, epoch count or threshold that is
   * missing or 0 becomes 0.3, 0.1, 20000 or 0.005. A momentum of 0 therefore
   * cannot be configured.
   */
  lemma ConfigureDefaults(inputs: nat, outputs: nat, zero: bool)
    ensures var v := if zero then Some(0.0) else None;
            var o := Options(inputs, outputs, None, v, v, if zero then Some(0) else None, v, None);
            Configure(o) == Ok(Settings([inputs, 3, outputs], Sigmoid, 0.3, 0.1, 20000, 0.005))
  {
    var v := if zero then Some(0.0) else None;
    var o := Options(inputs, outputs, None, v, v, if zero then Some(0) else None, v, None);
    assert Topology(o) == [inputs, 3, outputs];
  }

  /** A network with no hidden layers connects the inputs straight to the outputs. */
  lemma ConfigureNoHidden(o: Options)
    requires o.layers == Some([]) && o.inputs >= 0 && o.outputs >= 0 && Lookup(ActivationName(o)).Some?
    ensures Configure(o).Ok? && Configure(o).value.layers == [o.inputs, o.outputs]
  {
    assert Topology(o) == [o.inputs, o.outputs];
  }

  /**
   * The neuron loop of the constructor for one layer: each neuron gets its
   * row of initial weights (the source draws them with Math.random) and a
   * row of zero steps, one entry per neuron of the layer before.
   */
  method InitLayer(initW: Matrix, previousLayerSize: nat) returns (rows: Matrix, stepRows: Matrix)
    ensures rows == initW && stepRows == ZeroMatrix(|initW|, previousLayerSize)
  {
    rows, stepRows := [], [];
    var neuron := 0;
    while neuron < |initW|
      invariant 0 <= neuron <= |initW|
      invariant rows == initW[..neuron]
      invariant |stepRows| == neuron && forall n :: 0 <= n < neuron ==> stepRows[n] == Zeros(previousLayerSize)
    {
      rows := rows + [initW[neuron]];
      stepRows := stepRows + [Zeros(previousLayerSize)];
      neuron := neuron + 1;
    }
  }

  /**
   * The layer loop of the constructor: zero outputs, errors and gradients for
   * every layer and, for every layer after the first, the initial biases and
   * weights with zero steps.
   */
  method Build(sizes: seq<nat>, initWeights: seq<Matrix>, initBiases: seq<Vector>)
    returns (outs: seq<Vector>, errs: seq<Vector>, grads: seq<Vector>, bs: seq<Vector>, ws: seq<Matrix>, ss: seq<Matrix>)
    requires MatricesFit(initWeights, sizes) && BiasesFit(initBiases, sizes)
    ensures outs == ZeroVectors(sizes) && errs == outs && grads == outs
    ensures bs == initBiases && ws == initWeights && ss == ZeroMatrices(sizes)
  {
    outs, errs, grads := [], [], [];
    bs, ws, ss := [], [], [];
    var layer := 0;
    while layer < |sizes|
      invariant 0 <= layer <= |sizes|
      invariant outs == ZeroVectors(sizes)[..layer] && errs == outs && grads == outs
      invariant bs == initBiases[..layer] && ws == initWeights[..layer] && ss == ZeroMatrices(sizes)[..layer]
    {
      var layerSize := sizes[layer];
      outs := outs + [Zeros(layerSize)];
      errs := errs + [Zeros(layerSize)];
      grads := grads + [Zeros(layerSize)];
      if layer > 0 {
        var previousLayerSize := sizes[layer - 1];
        var rows, stepRows := InitLayer(initWeights[layer], previousLayerSize);
        bs := bs + [initBiases[layer]];
        ws := ws + [rows];
        ss := ss + [stepRows];
      } else {
        bs := bs + [[]];
        ws := ws + [[]];
        ss := ss + [[]];
      }
      layer := layer + 1;
    }
    assert outs == ZeroVectors(sizes)[..|sizes|];
    assert bs == initBiases[..|sizes|];
    assert ws == initWeights[..|sizes|];
    assert ss == ZeroMatrices(sizes)[..|sizes|];
  }

  /**
   * The innermost loop of predict: a neuron's bias plus its weighted inputs,
   * added in increasing connection order.
   */
  method WeightedSum(w: Vector, bias: real, x: Vector) returns (sum: real)
    requires |w| <= |x|
    ensures sum == bias + Dot(w, x, |w|)
  {
    sum := bias;
    var conn := 0;
    while conn < |w|
      invariant 0 <= conn <= |w|
      invariant sum == bias + Dot(w, x, conn)
    {
      DotNext(w, x, conn);
      sum := sum + x[conn] * w[conn];
      conn := conn + 1;
    }
  }

  /**
   * The neuron loop of predict for one layer: overwrites each slot of the
   * layer's previous outputs with the activation of that neuron's weighted sum.
   */
  method FeedLayer(c: Config, W: Matrix, b: Vector, x: Vector, previous: Vector) returns (row: Vector)
    requires |W| == |b| && |previous| == |b| && forall n :: 0 <= n < |W| ==> |W[n]| <= |x|
    ensures row == LayerOut(c, W, b, x)
  {
    row := previous;
    var neuron := 0;
    while neuron < |b|
      invariant 0 <= neuron <= |b| && |row| == |b|
      invariant forall n :: 0 <= n < neuron ==> row[n] == Neuron(c, W[n], b[n], x)
    {
      var sum := WeightedSum(W[neuron], b[neuron], x);
      row := row[neuron := Apply(c.func, c.math, sum)];
      neuron := neuron + 1;
    }
  }

  /**
   * The innermost loop of backPropogate: the next layer's gradients g sent
   * back through its weight rows W into neuron n, added in increasing order.
   */
  method SumBack(g: Vector, W: Matrix, n: nat) returns (error: real)
    requires |W| == |g| && forall i :: 0 <= i < |g| ==> n < |W[i]|
    ensures error == BackSum(g, W, n, |g|)
  {
    error := 0.0;
    var i := 0;
    while i < |g|
      invariant 0 <= i <= |g|
      invariant error == BackSum(g, W, n, i)
    {
      BackSumNext(g, W, n, i);
      error := error + g[i] * W[i][n];
      i := i + 1;
    }
  }

  /**
   * The neuron loop of backPropogate for one layer with outputs `out`: in the
   * last layer each error is target minus output, in a hidden layer it is
   * the next layer's gradients gNext sent back through its weights wNext;
   * each gradient is the error times the slope of f at the output. The
   * layer's previous errors and gradients are overwritten slot by slot.
   */
  method BackLayer(f: Func, out: Vector, target: Vector, gNext: Vector, wNext: Matrix, last: bool,
                   previousErrors: Vector, previousGradients: Vector) returns (e: Vector, g: Vector)
    requires |previousErrors| == |out| && |previousGradients| == |out|
    requires last ==> |target| == |out|
    requires !last ==> |wNext| == |gNext| && forall i :: 0 <= i < |gNext| ==> |wNext[i]| == |out|
    ensures last ==> e == OutputErrors(target, out)
    ensures !last ==> e == HiddenErrors(gNext, wNext, |out|)
    ensures g == LayerGradients(f, e, out)
  {
    e, g := previousErrors, previousGradients;
    var neuron := 0;
    while neuron < |out|
      invariant 0 <= neuron <= |out| && |e| == |out| && |g| == |out|
      invariant forall n :: 0 <= n < neuron ==>
                  e[n] == if last then target[n] - out[n] else BackSum(gNext, wNext, n, |gNext|)
      invariant forall n :: 0 <= n < neuron ==> g[n] == Gradient(f, e[n], out[n])
    {
      var error;
      if !last {
        error := SumBack(gNext, wNext, neuron);
      } else {
        error := target[neuron] - out[neuron];
      }
      e := e[neuron := error];
      g := g[neuron := Gradient(f, error, out[neuron])];
      neuron := neuron + 1;
    }
  }

  /**
   * The connection loop of gradientDescent for one neuron: each step becomes
   * lr * gradient * input plus momentum times the previous step, and the
   * weight gains the new step.
   */
  method DescendNeuron(c: Config, gradient: real, inputs: Vector, w: Vector, s: Vector) returns (w2: Vector, s2: Vector)
    requires |w| == |inputs| && |s| == |inputs|
    ensures s2 == RowSteps(c, gradient, inputs, s)
    ensures w2 == AddRow(w, s2)
  {
    w2, s2 := w, s;
    var conn := 0;
    while conn < |inputs|
      invariant 0 <= conn <= |inputs| && |w2| == |inputs| && |s2| == |inputs|
      invariant forall i :: 0 <= i < conn ==> s2[i] == NewStep(c, gradient, inputs[i], s[i]) && w2[i] == w[i] + s2[i]
      invariant forall i :: conn <= i < |inputs| ==> w2[i] == w[i] && s2[i] == s[i]
    {
      var step := s2[conn];
      step := NewStep(c, gradient, inputs[conn], step);
      w2 := w2[conn := w2[conn] + step];
      s2 := s2[conn := step];
      conn := conn + 1;
    }
  }

  /**
   * The neuron loop of gradientDescent for one layer with gradients g fed
   * `inputs`: every neuron's weights and steps are updated, then its bias
   * gains lr * gradient.
   */
  method DescendLayer(c: Config, g: Vector, inputs: Vector, W: Matrix, b: Vector, S: Matrix)
    returns (W2: Matrix, b2: Vector, S2: Matrix)
    requires MatrixFits(W, |g|, |inputs|) && MatrixFits(S, |g|, |inputs|) && |b| == |g|
    ensures S2 == LayerSteps(c, g, inputs, S)
    ensures W2 == AddSteps(W, S2)
    ensures b2 == LayerBiases(c, g, b)
  {
    W2, b2, S2 := W, b, S;
    var neuron := 0;
    while neuron < |g|
      invariant 0 <= neuron <= |g| && |W2| == |g| && |b2| == |g| && |S2| == |g|
      invariant forall n :: 0 <= n < neuron ==>
                  S2[n] == RowSteps(c, g[n], inputs, S[n]) && W2[n] == AddRow(W[n], S2[n]) &&
                  b2[n] == NewBias(c, b[n], g[n])
      invariant forall n :: neuron <= n < |g| ==> W2[n] == W[n] && S2[n] == S[n] && b2[n] == b[n]
    {
      var w, s := DescendNeuron(c, g[neuron], inputs, W2[neuron], S2[neuron]);
      W2 := W2[neuron := w];
      S2 := S2[neuron := s];
      b2 := b2[neuron := NewBias(c, b2[neuron], g[neuron])];
      neuron := neuron + 1;
    }
  }

  class NeuralNetwork {
    const layers: seq<nat>
    const func: Func
    const math: MathLib
    const learningRate: real
    const momentum: real
    const epochs: int
    const errorThreshold: real

    /** outputs[l]: the output of every neuron of layer l after the last prediction. */
    var outputs: seq<Vector>
    /** errors[l] and gradients[l]: what the last backpropagation computed for layer l. */
    var errors: seq<Vector>
    var gradients: seq<Vector>
    /** biases[l][n], weights[l][n][c] and the last weight steps[l][n][c], for l >= 1. */
    var biases: seq<Vector>
    var weights: seq<Matrix>
    var steps: seq<Matrix>

    /** Every array is shaped by the topology. */
    predicate Valid()
      reads this
    {
      |layers| >= 2 &&
      VectorsFit(outputs, layers) && VectorsFit(errors, layers) && VectorsFit(gradients, layers) &&
      ParamsFit(Parameters(), layers)
    }

    /** The settings the arithmetic of layers.dfy depends on. */
    function Cfg(): Config
    {
      Config(layers, func, math, learningRate, momentum)
    }

    /** What training updates. */
    function Parameters(): Params
      reads this
    {
      Params(weights, biases, steps)
    }

    /**
     * Builds the per-layer arrays in one loop over the topology: zero
     * outputs, errors and gradients for every layer and, for every layer
     * after the first, the given biases and weights (which stand for the
     * source's Math.random draws) with zero steps.
     */
    constructor (opts: Options, math: MathLib, initWeights: seq<Matrix>, initBiases: seq<Vector>)
      requires Configure(opts).Ok?
      requires MatricesFit(initWeights, Configure(opts).value.layers)
      requires BiasesFit(initBiases, Configure(opts).value.layers)
      ensures Valid()
      ensures var s := Configure(opts).value;
              layers == s.layers && func == s.func && this.math == math &&
              learningRate == s.learningRate && momentum == s.momentum &&
              epochs == s.epochs && errorThreshold == s.errorThreshold
      ensures outputs == ZeroVectors(layers) && errors == ZeroVectors(layers) && gradients == ZeroVectors(layers)
      ensures weights == initWeights && biases == initBiases && steps == ZeroMatrices(layers)
    {
      var s := Configure(opts).value;
      var sizes := s.layers;
      var outs, errs, grads, bs, ws, ss := Build(sizes, initWeights, initBiases);
      layers := sizes;
      func := s.func;
      this.math := math;
      learningRate := s.learningRate;
      momentum := s.momentum;
      epochs := s.epochs;
      errorThreshold := s.errorThreshold;
      outputs := outs;
      errors := errs;
      gradients := grads;
      biases := bs;
      weights := ws;
      steps := ss;
    }

    /**
     * A forward pass: layer 0 takes the input and every later layer,
     * in increasing order, computes each neuron's activation of its bias plus
     * its weighted inputs from the layer before. Only `outputs` changes.
     */
    method Predict(input: Vector) returns (r: Vector)
      requires Valid() && |input| == layers[0]
      modifies this`outputs
      ensures Valid()
      ensures outputs == Forward(Cfg(), weights, biases, input)
      ensures r == outputs[|layers| - 1]
    {
      var outs := outputs[0 := input];
      ForwardPrefixStart(Cfg(), weights, biases, input, outputs);
      var layer := 1;
      while layer < |layers|
        invariant 1 <= layer <= |layers|
        invariant ForwardPrefix(Cfg(), weights, biases, input, outs, layer)
      {
        var row := FeedLayer(Cfg(), weights[layer], biases[layer], outs[layer - 1], outs[layer]);
        ForwardPrefixNext(Cfg(), weights, biases, input, outs, layer);
        outs := outs[layer := row];
        layer := layer + 1;
      }
      ForwardPrefixDone(Cfg(), weights, biases, input, outs);
      outputs := outs;
      r := outputs[|layers| - 1];
    }

    /**
     * A backward pass against `target`, from the last layer down to layer 0;
     * each layer's errors use the gradients just stored for the layer above.
     * `input` and `output` are accepted and unused, as in the source. Only
     * `errors` and `gradients` change.
     */
    method BackPropogate(input: Vector, output: Vector, target: Vector)
      requires Valid() && |target| == layers[|layers| - 1]
      modifies this`errors, this`gradients
      ensures Valid()
      ensures errors == Errors(Cfg(), outputs, weights, target)
      ensures gradients == Gradients(Cfg(), outputs, weights, target)
    {
      var errs, grads := errors, gradients;
      var layer := |layers| - 1;
      while layer >= 0
        invariant -1 <= layer < |layers|
        invariant DeltaSuffix(Cfg(), outputs, weights, target, errs, grads, layer)
      {
        var last := layer == |layers| - 1;
        var gNext := if last then [] else grads[layer + 1];
        var wNext := if last then [] else weights[layer + 1];
        var e, g := BackLayer(func, outputs[layer], target, gNext, wNext, last, errs[layer], grads[layer]);
        DeltaSuffixNext(Cfg(), outputs, weights, target, errs, grads, layer, e, g);
        errs := errs[layer := e];
        grads := grads[layer := g];
        layer := layer - 1;
      }
      DeltaSuffixDone(Cfg(), outputs, weights, target, errs, grads);
      errors := errs;
      gradients := grads;
    }

    /**
     * One update of every layer after the first, in increasing order, from
     * the outputs of the last forward pass and the gradients of the last
     * backward pass. Only the weights, biases and steps change.
     */
    method GradientDescent()
      requires Valid()
      modifies this`weights, this`biases, this`steps
      ensures Valid()
      ensures Parameters() == Descend(Cfg(), outputs, gradients, old(Parameters()))
    {
      var p := Parameters();
      var ws, bs, ss := weights, biases, steps;
      DescendPrefixStart(Cfg(), outputs, gradients, p);
      var layer := 1;
      while layer <= |layers| - 1
        invariant 1 <= layer <= |layers|
        invariant DescendPrefix(Cfg(), outputs, gradients, p, Params(ws, bs, ss), layer)
      {
        var inputs := outputs[layer - 1];
        var w, b, s := DescendLayer(Cfg(), gradients[layer], inputs, ws[layer], bs[layer], ss[layer]);
        DescendPrefixNext(Cfg(), outputs, gradients, p, Params(ws, bs, ss), layer, w, b, s);
        ws := ws[layer := w];
        bs := bs[layer := b];
        ss := ss[layer := s];
        layer := layer + 1;
      }
      DescendPrefixDone(Cfg(), outputs, gradients, p, Params(ws, bs, ss));
      weights, biases, steps := ws, bs, ss;
    }

    /**
     * The body of train's sample loop: a forward pass on `input`, a backward
     * pass against `target`, an update, and the mean squared error of the
     * output layer.
     */
    method TrainSample(input: Vector, target: Vector) returns (sampleError: real)
      requires Valid() && |input| == layers[0] && |target| == layers[|layers| - 1] && layers[|layers| - 1] > 0
      modifies this`outputs, this`errors, this`gradients, this`weights, this`biases, this`steps
      ensures Valid()
      ensures Parameters() == Sample(Cfg(), old(Parameters()), input, target).0
      ensures sampleError == Sample(Cfg(), old(Parameters()), input, target).1
      ensures SampleCaches(Cfg(), old(Parameters()), input, target, outputs, errors, gradients)
    {
      ghost var p, c := Parameters(), Cfg();
      SampleParts(c, p, input, target);
      var output := Predict(input);
      ghost var outs := outputs;
      assert outs == Forward(c, p.weights, p.biases, input);
      BackPropogate(input, output, target);
      assert errors == Errors(c, outs, p.weights, target);
      assert gradients == Gradients(c, outs, p.weights, target);
      SampleCachesIntro(c, p, input, target, outs, errors, gradients);
      hide SampleCaches;
      GradientDescent();
      assert Parameters() == Descend(c, outs, gradients, p);
      sampleError := MeanSquare(errors[|layers| - 1]);
    }

    /** train's sample loop: one epoch over every sample in order, summing the samples' errors. */
    method TrainEpoch(data: Dataset) returns (totalError: real)
      requires Valid() && DataFits(data, layers)
      modifies this`outputs, this`errors, this`gradients, this`weights, this`biases, this`steps
      ensures Valid()
      ensures Parameters() == Pass(Cfg(), old(Parameters()), data, |data.inputs|).0
      ensures totalError == Pass(Cfg(), old(Parameters()), data, |data.inputs|).1
      ensures var last := |data.inputs| - 1;
              SampleCaches(Cfg(), Pass(Cfg(), old(Parameters()), data, last).0, data.inputs[last], data.targets[last],
                           outputs, errors, gradients)
    {
      hide Sample, SampleCaches;
      ghost var p, c := Parameters(), Cfg();
      totalError := 0.0;
      var x := 0;
      while x < |data.inputs|
        invariant Valid() && 0 <= x <= |data.inputs|
        invariant Parameters() == Pass(c, p, data, x).0 && totalError == Pass(c, p, data, x).1
        invariant x > 0 ==> SampleCaches(c, Pass(c, p, data, x - 1).0, data.inputs[x - 1], data.targets[x - 1],
                                         outputs, errors, gradients)
      {
        PassNext(c, p, data, x);
        var sampleError := TrainSample(data.inputs[x], data.targets[x]);
        totalError := totalError + sampleError;
        x := x + 1;
      }
    }

    /**
     * Trains on `data` epoch by epoch while fewer than `epochs` epochs have
     * run and the last epoch's error is above the threshold (1 before the
     * first). An epoch's error is the total of its samples' mean squared
     * output errors over the number of samples.
     */
    method Train(data: Dataset) returns (error: real, iterations: nat)
      requires Valid() && DataFits(data, layers)
      modifies this`outputs, this`errors, this`gradients, this`weights, this`biases, this`steps
      ensures Valid()
      ensures Parameters() == Run(Cfg(), old(Parameters()), data, iterations).0
      ensures error == Run(Cfg(), old(Parameters()), data, iterations).1
      ensures iterations == 0 || iterations <= epochs
      ensures iterations >= epochs || error <= errorThreshold
      ensures forall k :: 0 <= k < iterations ==> Run(Cfg(), old(Parameters()), data, k).1 > errorThreshold
      ensures iterations == 0 ==> outputs == old(outputs) && errors == old(errors) && gradients == old(gradients)
      ensures iterations > 0 ==>
                var last := |data.inputs| - 1;
                SampleCaches(Cfg(), Pass(Cfg(), Run(Cfg(), old(Parameters()), data, iterations - 1).0, data, last).0,
                             data.inputs[last], data.targets[last], outputs, errors, gradients)
    {
      hide Sample, SampleCaches, Pass, Run;
      ghost var p, c := Parameters(), Cfg();
      error := 1.0;
      iterations := 0;
      var i := 0;
      while i < epochs && error > errorThreshold
        invariant Valid() && 0 <= i && iterations == i && (i == 0 || i <= epochs)
        invariant Parameters() == Run(c, p, data, i).0 && error == Run(c, p, data, i).1
        invariant forall k :: 0 <= k < i ==> Run(c, p, data, k).1 > errorThreshold
        invariant i == 0 ==> outputs == old(outputs) && errors == old(errors) && gradients == old(gradients)
        invariant i > 0 ==>
                    SampleCaches(c, Pass(c, Run(c, p, data, i - 1).0, data, |data.inputs| - 1).0,
                                 data.inputs[|data.inputs| - 1], data.targets[|data.inputs| - 1],
                                 outputs, errors, gradients)
      {
        RunNext(c, p, data, i);
        var totalError := TrainEpoch(data);
        error := Average(totalError, |data.inputs|);
        iterations := iterations + 1;
        i := i + 1;
      }
    }
  }
}
