# neuraljs network engine in Dafny

This project models neuraljs, a small fully connected feed-forward neural
network. The model covers three parts of the library:

- the activation table (sigmoid, tanh, relu);
- the table of their derivatives, each taken at the activation's output;
- the `NeuralNetwork` class:
  - its constructor, which resolves options and builds the per-layer arrays;
  - `predict`, the forward pass;
  - `backPropogate`, which computes errors and gradients from the output layer down;
  - `gradientDescent`, the weight, momentum-step and bias update;
  - `train`, which runs online epochs until an epoch cap or an error threshold stops it.

Every number is a `real`. The files are:

- `wrappers.dfy`: `Option` and `Result`.
- `activation.dfy`: module `Activation`, the activation table. JavaScript's
  `Math.exp` and `Math.tanh` are a `MathLib` value the network is built with.
  The model knows only that `exp` is positive.
- `derivative.dfy`: module `Derivative`, the derivative table. It models the
  table both as written and as corrected (see Findings). The network uses the
  corrected table.
- `layers.dfy`: module `Layers`, the network's arithmetic as pure
  specification functions over sequences:
  - `Forward`, the forward pass;
  - `DeltaAt`, `Errors` and `Gradients`, backpropagation;
  - `Descend`, the update;
  - `Sample`, `Pass` and `Run`, one sample, one epoch and a whole run of training.

  The module also holds the lemmas about these functions, and the loop
  invariants (`ForwardPrefix`, `DeltaSuffix`, `DescendPrefix`) that the
  methods keep.
- `network.dfy`: module `Network`.
  - The options and their defaults (`Configure`).
  - The class `NeuralNetwork`, whose per-layer arrays are `seq` fields.
  - Its methods run the source's nested loops over local copies of the
    fields. Each method is proved to leave every field it changes equal
    to the specification functions of `layers.dfy`.

## Model

| member | source | states |
|---|---|---|
| Activation.Lookup | lib/activation.js:1-11 | an entry is found only under its own key |
| Activation.LookupName | lib/activation.js:1-11 | each of the three entries is found under its key |
| Activation.SigmoidAt | lib/activation.js:2-4 | sigmoid lies strictly between 0 and 1 for every input |
| Activation.ReluAt | lib/activation.js:8-10 | relu is at least 0 and at least x, and equals one of them (it is max(0, x)) |
| Activation.TanhAt | lib/activation.js:5-7 | no contract of its own: tanh is the abstract `Math.tanh` of the `MathLib`, so nothing about it is proved |
| Activation.Apply | lib/network.js:67 | the dispatch `activation[func](x)`: a sigmoid output lies in (0, 1) and a relu output is never negative |
| Activation.SigmoidAtZero | lib/activation.js:2-4 | sigmoid(0) = 1/2 when exp(0) = 1 |
| Activation.ReluCases | lib/activation.js:8-10 | relu passes non-negative inputs through and maps negative inputs to 0 |
| Activation.ReluIdempotent | lib/activation.js:8-10 | applying relu twice equals applying it once |
| Activation.ReluMonotone | lib/activation.js:8-10 | relu is monotone |
| Derivative.SigmoidSlope | lib/derivative.js:2-4 | no contract of its own: y(1 - y); its properties are the `SigmoidSlope*` lemmas below |
| Derivative.TanhSlopeAsWritten | lib/derivative.js:5-7 | no contract of its own: the entry as written; `TanhAsWrittenAlwaysThrows` states what it yields |
| Derivative.TanhSlope | lib/derivative.js:5-7 | no contract of its own: the corrected 1 - y^2; `TanhSlopeBounds` states its range |
| Derivative.ReluSlopeAsWritten | lib/derivative.js:8-11 | no contract of its own: the entry as written; `ReluAsWrittenCases` states what it yields |
| Derivative.ReluSlope | lib/derivative.js:8-11 | no contract of its own: the corrected entry; `DeriveAgreesWithWritten` and `ReluSlopeOfOutput` relate it to the entry as written |
| Derivative.DeriveAsWritten | lib/derivative.js:1-12 | no contract of its own: the table as written, selected by name |
| Derivative.Derive | lib/derivative.js:1-12 | no contract of its own: the corrected table, which the network uses; `DeriveAgreesWithWritten` ties it to the table as written |
| Derivative.SigmoidSlopeRoots | lib/derivative.js:2-4 | the sigmoid slope y(1-y) vanishes at the saturated outputs 0 and 1 |
| Derivative.SigmoidSlopeSymmetric | lib/derivative.js:2-4 | the sigmoid slope is symmetric about y = 1/2 |
| Derivative.SigmoidSlopeBounds | lib/derivative.js:2-4 | the sigmoid slope is at most 1/4, and non-negative on [0, 1] |
| Derivative.SigmoidSlopeOfOutput | lib/derivative.js:2-4 | at any sigmoid output the slope lies in (0, 1/4] |
| Derivative.TanhAsWrittenAlwaysThrows | lib/derivative.js:5-7 | the tanh entry as written throws a ReferenceError for every argument |
| Derivative.TanhSlopeBounds | lib/derivative.js:5-7 | the corrected tanh slope 1 - y^2 is 1 at 0 and lies in [0, 1] on tanh's range [-1, 1] |
| Derivative.ReluAsWrittenCases | lib/derivative.js:8-11 | the relu entry as written yields 1 above 0, 0 below 0 and `undefined` at 0 |
| Derivative.DeriveAgreesWithWritten | lib/derivative.js:1-12 | the table as written yields a number exactly for sigmoid and for relu away from 0, and the corrected table agrees with it there |
| Derivative.ReluSlopeOfOutput | lib/derivative.js:8-11 | at a relu output the corrected slope is 1 for a positive input and 0 otherwise |
| Layers.ZeroVectors | lib/network.js:29-31 | one all-zero vector per layer, sized by the topology |
| Layers.ZeroMatrices | lib/network.js:39-44 | for every layer after the first, one zero row per neuron, as long as the layer before |
| Layers.Dot | lib/network.js:62-64 | no contract of its own: the sum over the first k connections of input times weight, accumulated in connection order; `WeightedSum` is proved against it |
| Layers.Neuron | lib/network.js:60-67 | no contract of its own: act(bias + Dot of the weights with the previous layer) |
| Layers.LayerOut | lib/network.js:56-68 | a layer has one output per neuron, and output n is that neuron's `Neuron` value |
| Layers.Activations | lib/network.js:50-75 | shape only: layer l of the forward pass has layers[l] entries; `ForwardLayer` and `ForwardNeuron` state its values |
| Layers.Forward | lib/network.js:50-75 | every layer of the forward pass has its layer's size, and layer l is the l-th activation of the input |
| Layers.ForwardLayer | lib/network.js:50-75 | layer 0 of the forward pass is the input, and each later layer is computed from the one before |
| Layers.ForwardNeuron | lib/network.js:56-68 | neuron n of layer l outputs act(bias + sum of weights times the previous layer's outputs) |
| Layers.DotOfZeros | lib/network.js:62-64 | a weighted sum with all-zero weights is 0 |
| Layers.ZeroNeuron | lib/network.js:60-67 | a neuron whose bias and weights are all 0 outputs act(0) |
| Layers.ForwardZeroNetwork | lib/network.js:50-75 | with all weights and biases 0, every neuron after the input layer outputs act(0), whatever the input |
| Layers.BackSum | lib/network.js:119-121 | no contract of its own: the sum over the first k neurons of the next layer of gradient times the weight into neuron n, in order |
| Layers.OutputErrors | lib/network.js:122-124 | the output layer's error n is target[n] - output[n] |
| Layers.HiddenErrors | lib/network.js:118-121 | a hidden layer has one error per neuron, and error n is the `BackSum` into neuron n |
| Layers.Gradient | lib/network.js:128 | no contract of its own: the error times the corrected derivative at the output |
| Layers.LayerGradients | lib/network.js:114-129 | gradient n of a layer is the `Gradient` of its error n and output n |
| Layers.DeltaAt | lib/network.js:112-131 | shape only: a layer's errors and gradients have the layer's size; `OutputError`, `HiddenError` and `GradientEntry` state their values |
| Layers.Errors | lib/network.js:112-131 | shape only: one error vector per layer, sized by the topology; `OutputError` and `HiddenError` state its entries |
| Layers.Gradients | lib/network.js:112-131 | shape only: one gradient vector per layer, sized by the topology; `GradientEntry` states its entries |
| Layers.OutputError | lib/network.js:122-124 | the output layer's error of neuron n is target[n] - output[n] |
| Layers.HiddenError | lib/network.js:118-121 | a hidden neuron's error is the sum of the next layer's gradients times the weights that connect the neuron to them |
| Layers.GradientEntry | lib/network.js:127-128 | every gradient is the neuron's error times the derivative at its output |
| Layers.PerfectFitZeroDeltas | lib/network.js:112-131 | when the output equals the target, every error and every gradient is 0 |
| Layers.NewStep | lib/network.js:141-142 | no contract of its own: lr * gradient * input + momentum * previous step; `MomentumGrows` and `DescendEntry` state its use |
| Layers.RowSteps | lib/network.js:138-147 | one neuron's new step for each connection is the `NewStep` of that connection's input and old step |
| Layers.LayerSteps | lib/network.js:137-147 | a layer's new steps are, neuron by neuron and connection by connection, the `NewStep` of the gradient, input and old step |
| Layers.AddRow | lib/network.js:145 | each weight of a row grows by its step |
| Layers.AddSteps | lib/network.js:137-147 | each weight of a layer grows by its step, row by row |
| Layers.NewBias | lib/network.js:150 | no contract of its own: bias + lr * gradient, with no momentum term |
| Layers.LayerBiases | lib/network.js:137-151 | bias n of a layer becomes the `NewBias` of its gradient |
| Layers.DescendSteps | lib/network.js:133-153 | the new steps keep the topology's shape, and layer l >= 1 holds the `LayerSteps` of its gradients and the previous layer's outputs |
| Layers.DescendWeights | lib/network.js:133-153 | the new weights keep the topology's shape, and layer l >= 1 holds its weights plus its new steps |
| Layers.DescendBiases | lib/network.js:133-153 | the new biases keep the topology's shape, and layer l >= 1 holds the `LayerBiases` of its gradients |
| Layers.Descend | lib/network.js:133-153 | shape only: the updated parameters keep the topology's shape; `DescendEntry` and `DescendIdle` state their values |
| Layers.DescendEntry | lib/network.js:138-150 | each new step is lr * gradient * input + momentum * old step; each weight grows by its new step; each bias grows by lr * gradient |
| Layers.DescendIdle | lib/network.js:133-153 | with all gradients and all old steps 0, an update changes no weight, bias or step |
| Layers.MomentumGrows | lib/network.js:141-142 | repeating an update with the same positive raw step from a zero step makes the second step strictly larger when momentum is positive |
| Layers.SquaredSum | lib/network.js:95 | the sum of squares of the first k errors, folded from 0 as the `reduce` does, is never negative |
| Layers.MeanSquare | lib/network.js:94-96 | the mean squared error of a non-empty output layer is never negative |
| Layers.MeanSquareOfZeros | lib/network.js:94-96 | a sample whose output errors are all 0 contributes no error |
| Layers.Sample | lib/network.js:84-96 | one sample's update keeps every parameter shaped by the topology, and its error is never negative |
| Layers.PerfectFitFixedPoint | lib/network.js:84-96 | a sample the network already fits, with no momentum left over, leaves the parameters unchanged and contributes error 0 |
| Layers.Pass | lib/network.js:83-97 | an epoch keeps the parameters shaped by the topology, and its total error is never negative |
| Layers.SampleCaches | lib/network.js:84-88 | no contract of its own: after a sample, the outputs are the forward pass of its input and the errors and gradients are the backpropagation of its target through them |
| Layers.PassNext | lib/network.js:83-97 | one more sample continues a pass from where it stands and adds that sample's error to the total |
| Layers.Average | lib/network.js:99 | the epoch error of a non-negative total is non-negative |
| Layers.Run | lib/network.js:77-104 | a run of 0 epochs leaves the parameters unchanged with error 1, and every run's error is non-negative |
| Layers.RunNext | lib/network.js:81-104 | one more epoch runs a full pass from the last parameters, and its error is the pass's total over the number of samples |
| Network.OrReal | lib/network.js:11-14 | `option \|\| fallback`: a given non-zero option is kept, and a missing or 0 option becomes the fallback |
| Network.OrInt | lib/network.js:13 | the same for the integer epoch count |
| Network.ActivationName | lib/network.js:15 | a given non-empty name is kept, and a missing or empty name becomes "sigmoid" |
| Network.Topology | lib/network.js:8-24 | the topology starts with the input size and ends with the output size, with the given hidden sizes between them, or [inputs, 3, outputs] without a `layers` option |
| Network.Configure | lib/network.js:7-24 | options resolve exactly when no layer size is negative and the activation is in the table; a negative size fails with a RangeError (as `new Array` throws), and otherwise an unknown name fails with UnknownActivation, which is the model's own error; the topology is inputs, hidden sizes, outputs, and the defaults are 0.3, 0.1, 20000 and 0.005 |
| Network.ConfigureDefaults | lib/network.js:10-15 | without options, or with numeric options of 0, the network is [inputs, 3, outputs], sigmoid, 0.3, 0.1, 20000, 0.005 |
| Network.ConfigureNoHidden | lib/network.js:10-24 | an empty hidden-layer list connects the inputs straight to the outputs |
| Network.InitLayer | lib/network.js:42-45 | the neuron loop gives each neuron its initial weight row and a zero step row as long as the previous layer |
| Network.Build | lib/network.js:27-47 | the layer loop builds zero outputs, errors and gradients for every layer, the initial weights and biases, and zero steps |
| Network.WeightedSum | lib/network.js:60-64 | the connection loop yields the bias plus the dot product of the weights with the inputs |
| Network.FeedLayer | lib/network.js:56-68 | the neuron loop yields exactly the layer's activations of the previous layer |
| Network.SumBack | lib/network.js:119-121 | the loop yields the next layer's gradients summed through the weights into neuron n |
| Network.BackLayer | lib/network.js:114-129 | a layer's errors are target - output for the last layer and the back-propagated sums otherwise; its gradients are the errors times the derivative |
| Network.DescendNeuron | lib/network.js:138-147 | the connection loop yields the new momentum steps of one neuron and its weights moved by them |
| Network.DescendLayer | lib/network.js:137-151 | the neuron loop yields one layer's updated weights, biases and steps |
| Network.NeuralNetwork.Valid | lib/network.js:17-47 | no contract of its own: the shape invariant every method keeps; outputs, errors, gradients, weights, biases and steps are all sized by the topology |
| Network.NeuralNetwork.constructor | lib/network.js:6-48 | the settings are the resolved options; outputs, errors, gradients and steps start at 0, and weights and biases at the initial values |
| Network.NeuralNetwork.Predict | lib/network.js:50-75 | the outputs become the forward pass on the input, the result is its last layer, and nothing else changes |
| Network.NeuralNetwork.BackPropogate | lib/network.js:112-131 | errors and gradients become the backpropagation of the target through the current outputs and weights |
| Network.NeuralNetwork.GradientDescent | lib/network.js:133-153 | weights, biases and steps become the update of the old ones by the current gradients and outputs |
| Network.NeuralNetwork.TrainSample | lib/network.js:84-96 | the parameters become those after training on the sample, the result is its mean squared output error, and outputs, errors and gradients hold that sample's forward and backward passes through the old parameters |
| Network.NeuralNetwork.TrainEpoch | lib/network.js:82-97 | the parameters become those after a pass over all samples in order, the result is the sum of their errors, and outputs, errors and gradients hold the last sample's passes |
| Network.NeuralNetwork.Train | lib/network.js:77-110 | the parameters and error are those of a run of `iterations` epochs; the run stops at the epoch cap or once the error is at or below the threshold, and no earlier epoch's error met the threshold; outputs, errors and gradients hold the passes of the last sample of the last epoch, or are unchanged when no epoch ran |

## Left out

- Floating point is not modelled: arithmetic is exact, so NaN, infinities and rounding do not arise.
- `Math.exp` and `Math.tanh` are foreign code. They are the fields of a `MathLib` value given to the constructor. The model assumes only that `exp` is positive.
- `randomize` and its `Math.random` draws are replaced by the initial weights and biases, which are constructor parameters.
- `export` and `import` (file I/O) are not modelled. Nor are the epoch log line (`console.log`) or the `name` and `type` fields, which no computation reads.
- Network.Configure: an activation name that is not in the table is rejected when the options are resolved. For a name that is neither a key nor inherited from Object.prototype, the source accepts it and fails with a TypeError at the first `predict`. Names inherited from Object.prototype are not modelled. The source finds them by property lookup and does not fail. With "constructor", `Object(x)` acts as the identity and the derivative lookup yields y. With "toString", a neuron outputs the string "[object Object]", which becomes NaN in the next layer.
- Network.Configure: a missing `inputs` or `outputs` option is not modelled; the two sizes are required integers. Nested hidden-size arrays are not modelled either. A single non-zero hidden size n is passed as [n], which `flat()` treats the same way. The exception is `layers: 0`: it is falsy, so the source builds [inputs, 3, outputs], and it is modelled as a missing option, not as [0].
- Network.Configure: layer sizes follow the code: a size of 0 is accepted and a negative size is a RangeError. Sizes are unbounded integers, so the RangeError that `new Array(n)` also throws for n >= 2^32 is not modelled.
- Network.Configure: the epoch count is an integer. The source also accepts a fractional count, and its loop test `i < epochs` then runs the next whole number of epochs (2.5 runs 3).
- Network.NeuralNetwork.Predict: requires an input exactly as long as the input layer. A shorter input makes the source read `undefined` and compute NaN. A longer input is excluded too, although the source handles it differently. `predict` itself is still right, because it loops only to the length of each weight row (lib/network.js:62). But it stores the long array in `outputs[0]` (line 51). The next `gradientDescent` then loops to that array's length (line 138), finds no step past the row's end, and appends one NaN weight and one NaN step per extra input entry to every layer-1 row (lines 141-146). Every later prediction is then NaN. The model does not capture this.
- Network.NeuralNetwork.BackPropogate: requires a target exactly as long as the output layer. A shorter target makes the source compute NaN. A longer target is excluded too, although the source reads only its first outputSize entries (line 123) and computes the right result.
- Network.NeuralNetwork.BackPropogate: uses the corrected derivative table (see Findings), and so do `TrainSample`, `TrainEpoch` and `Network.NeuralNetwork.Train`. As written, the source behaves differently:
  - With "tanh", `backPropogate` stores `errors[last][0]` and then throws a ReferenceError at that neuron's gradient (lines 127-128), so `train` never finishes a sample.
  - With "relu", a neuron whose output is exactly 0 gets a NaN gradient. The NaN spreads to every error of the layer below (line 120) and into that neuron's weights and bias (lines 142-150).
  - The model computes 1 - y^2 and 0 there instead.
- Network.NeuralNetwork.Train: requires a non-empty dataset and a non-empty output layer. The source divides 0 by 0 there and gets NaN.
- Network.NeuralNetwork.Train: requires as many targets as inputs, and so does `TrainEpoch`. The source reads targets only for indices below the input count (lines 83, 88), so it accepts extra targets and ignores them.
- Network.NeuralNetwork.Predict: the source stores the caller's input array itself in `outputs[0]`, and `predict` returns the live output-layer array. The model copies values, so aliasing between the caller's arrays and the network's is not captured.
- Layers.Sample: its own contract states only shapes and a non-negative error. Its meaning is pinned by `TrainSample` and by the lemmas `PerfectFitFixedPoint`, `DescendEntry`, `OutputError`, `HiddenError` and `GradientEntry`.
- Activation.SigmoidAt: only bounds are stated, because `exp` is abstract.
- Activation.TanhAt: nothing is proved about tanh, because `Math.tanh` is abstract.

## Findings

| source | as written | input that shows it | evidently intended | confidence | as-written member | corrected member |
|---|---|---|---|---|---|---|
| lib/derivative.js:5-7 | the tanh derivative reads a name `y` that is bound nowhere, so every call throws a ReferenceError | any output, e.g. y = 0.5 with activation "tanh" during training | 1 - y^2, the tanh derivative in terms of the output | not executed | Derivative.TanhAsWrittenAlwaysThrows | Derivative.TanhSlopeBounds |
| lib/derivative.js:8-11 | the relu derivative tests y < 0 and y > 0 only, so at y = 0 it returns `undefined` and the gradient becomes NaN | y = 0, the output of any neuron whose weighted input is not positive | 0 at the kink, making the slope total | not executed | Derivative.ReluAsWrittenCases | Derivative.ReluSlopeOfOutput |
