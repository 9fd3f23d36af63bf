# Dense layer of a from-scratch neural network, in Dafny

This project models the fully-connected layer `DenseLayer` of a small Java neural-network
engine, together with the input descriptor `InputType`. The layer owns its weights `w`
(in x out) and bias `b` (1 x out). Its forward pass caches the output `a`; the first layer
also keeps the raw input `x`. Its backward pass stores `delta`, the weight gradient `dw`
(with an L2 term) and the bias gradient `db`. The update takes one gradient-descent step. During
the backward pass a layer asks its container for the next layer's weights and the previous
layer's output.

Files:

- `results.dfy` (module `Results`): the errors the Java code raises as exceptions. They are
  a null field, a shape that Nd4j refuses, and a missing layer in the container.
- `matrix.dfy` (module `Matrices`): rank-2 matrices of reals with their shapes. It defines
  the Nd4j operations the layer uses: `mmul`, `transpose`, `mul`, `add`, `sub` and
  `Nd4j.sum(., 0)`. It also defines `broadcast`, which the layer's header comment describes and
  which only the sigmoid below uses to add the bias row. It also proves the laws the layer's
  properties rest on.
- `activation.dfy` (module `Activations`): what a layer needs from its activation, and the
  default sigmoid activation. The layer writes it as z = w.Tx + b with one sample per column;
  with one sample per row, as here, that is a = sigmoid(x.w + b), with derivative a(1 - a).
- `dense_layer.dfy` (module `DenseLayers`): the backward and update formulas as functions,
  with lemmas about them. It holds the class `DenseLayer`, whose methods reassign its fields
  as the Java methods do, and the class `DenseLayerBuilder`.
- `training_step.dfy` (module `TrainingStep`): a client of the layer. It runs one correctly
  ordered training step of a two-layer network, as the training driver would.
- `input_type.dfy` (module `InputTypes`): the input descriptor and its derived size. Java
  computes that size in 32-bit `int` arithmetic.

Modelling choices:

- A Java field that is null until first assigned is an `Option`. Reading it while it is still
  `None` gives `Err(NullReference)`, where Java throws a null-pointer exception.
- A shape that Nd4j would refuse gives `Err(ShapeMismatch)`.
- A container lookup at a missing position gives `Err(NoSuchLayer)`.
- State the Java code changes before an exception stays changed:
  - `forward` on layer 0 stores `x` before the activation runs.
  - `back` stores `delta` before it computes `dw`.
  - `updateParam` replaces `w` before it computes the new `b`.
- The activation is a value with two functions: `forward(data, w, b)`, which may refuse
  shapes, and `back(a)`. The predicate `Conforms` states what the shape laws need from an
  activation. The sigmoid is one activation that conforms.
- The layer's container is `layers`: `None` until `Build`, as Java's container reference is
  null until `build`, and then the sequence passed to `Build`. `builder.get(k)` is
  `Neighbour(k)`; on a layer that was never built it fails with `Err(NullReference)`.
- The random matrices of `init` are parameters of `Init` of the shapes `Nd4j.rand` gives.
- The library's scalar sigmoid is the parameter `logistic` of the builder's constructor.
- The code's formula is used for the update, w := w - alpha.dw. The layer's doc comment has a
  typo at lines 47-49 of DenseLayer.java and writes dw := dw - alpha.dw.

## Model

| member | source | states |
|---|---|---|
| `Matrices.Transpose` | demo06/src/main/java/com/codingapi/deeplearning/demo06/learn/DenseLayer.java:15 | the transpose of an r x c matrix is c x r, with entry (i, j) taken from entry (j, i) |
| `Matrices.TransposeInvolutive` | demo06/src/main/java/com/codingapi/deeplearning/demo06/learn/DenseLayer.java:15 | transposing twice gives the original matrix |
| `Matrices.MatMul` | demo06/src/main/java/com/codingapi/deeplearning/demo06/learn/DenseLayer.java:10 | the product of an (A, B) and a (B, C) matrix is (A, C), and each entry is a row of the left factor times a column of the right |
| `Matrices.Hadamard` | demo06/src/main/java/com/codingapi/deeplearning/demo06/learn/DenseLayer.java:11 | `mul` of two matrices of the same shape keeps that shape and multiplies entry by entry |
| `Matrices.Broadcast` | demo06/src/main/java/com/codingapi/deeplearning/demo06/learn/DenseLayer.java:13 | broadcasting a 1 x c row to n rows gives an n x c matrix whose every row is that row |
| `Matrices.Add` | demo06/src/main/java/com/codingapi/deeplearning/demo06/learn/DenseLayer.java:14 | `add` of two matrices of the same shape keeps the shape and adds entry by entry |
| `Matrices.Sub` | demo06/src/main/java/com/codingapi/deeplearning/demo06/learn/DenseLayer.java:17 | `sub` of two matrices of the same shape keeps the shape and subtracts entry by entry |
| `Matrices.Scale` | demo06/src/main/java/com/codingapi/deeplearning/demo06/learn/DenseLayer.java:182 | `mul` by a scalar keeps the shape and multiplies every entry |
| `Matrices.ColumnSum` | demo06/src/main/java/com/codingapi/deeplearning/demo06/learn/DenseLayer.java:18 | `Nd4j.sum(m, 0)` is one row whose entry j is the sum of column j over all rows |
| `Matrices.ColumnSumSingleRow` | demo06/src/main/java/com/codingapi/deeplearning/demo06/learn/DenseLayer.java:18 | the column sum of a single row is that row |
| `Matrices.ColumnSumEmpty` | demo06/src/main/java/com/codingapi/deeplearning/demo06/learn/DenseLayer.java:18 | the column sum of no rows is a row of zeros |
| `Matrices.ColumnSumStack` | demo06/src/main/java/com/codingapi/deeplearning/demo06/learn/DenseLayer.java:18 | the column sum of two batches stacked is the sum of their column sums |
| `Matrices.TransposeProductStack` | demo06/src/main/java/com/codingapi/deeplearning/demo06/learn/DenseLayer.java:182 | transpose(a).d over two stacked batches is the sum of the products over each batch |
| `Matrices.TransposeTimesAt` | demo06/src/main/java/com/codingapi/deeplearning/demo06/learn/DenseLayer.java:182 | entry (i, j) of transpose(p).q is column i of p times column j of q |
| `Matrices.TimesTransposeAt` | demo06/src/main/java/com/codingapi/deeplearning/demo06/learn/DenseLayer.java:178 | entry (i, j) of p.transpose(q) is row i of p times row j of q |
| `Matrices.AddScaleZero` | demo06/src/main/java/com/codingapi/deeplearning/demo06/learn/DenseLayer.java:182 | adding a matrix scaled by 0 changes nothing |
| `Matrices.SubScaleZero` | demo06/src/main/java/com/codingapi/deeplearning/demo06/learn/DenseLayer.java:198 | subtracting a matrix scaled by 0 changes nothing |
| `Matrices.SubScaleUndo` | demo06/src/main/java/com/codingapi/deeplearning/demo06/learn/DenseLayer.java:198 | subtracting alpha.g and then -alpha.g returns the original matrix |
| `Activations.Affine` | demo06/src/main/java/com/codingapi/deeplearning/demo06/learn/DenseLayer.java:30-31 | z = x.w + b is batch x out, and entry (i, j) is row i of x times column j of w plus b[j] |
| `Activations.SigmoidForward` | demo06/src/main/java/com/codingapi/deeplearning/demo06/learn/DenseLayer.java:31-34 | the sigmoid output exists exactly when x fits w and b is a 1 x out row; it is batch x out with entries sigmoid(z); otherwise a shape error |
| `Activations.SigmoidBack` | demo06/src/main/java/com/codingapi/deeplearning/demo06/learn/DenseLayer.java:40 | the sigmoid derivative keeps the shape of a and its entries are a(1 - a) |
| `Activations.SigmoidConforms` | demo06/src/main/java/com/codingapi/deeplearning/demo06/learn/DenseLayer.java:118 | the default sigmoid activation meets the shape contract a layer relies on |
| `DenseLayers.HiddenDelta` | demo06/src/main/java/com/codingapi/deeplearning/demo06/learn/DenseLayer.java:176-178 | a hidden layer's delta exists exactly when the next weights and `a` are present and the shapes fit. It is batch x next.in, and entry (i, j) is (data row i . next.w row j) times the activation derivative at (i, j). Lookup failures pass through; a shape clash is `ShapeMismatch`; a missing `a` is `NullReference` |
| `DenseLayers.LayerDelta` | demo06/src/main/java/com/codingapi/deeplearning/demo06/learn/DenseLayer.java:174-179 | on the output layer the delta is the supplied signal itself; elsewhere it is the propagated delta |
| `DenseLayers.WeightGradient` | demo06/src/main/java/com/codingapi/deeplearning/demo06/learn/DenseLayer.java:180-182 | dw exists exactly when the previous activation is present, covers the same batch as delta, and transpose(prevA).delta has the shape of w. It then has the shape of w, and entry (i, j) is (column i of prevA . column j of delta) + lambda.w[i][j] |
| `DenseLayers.Descend` | demo06/src/main/java/com/codingapi/deeplearning/demo06/learn/DenseLayer.java:198-199 | the update step exists exactly when the gradient has the shape of the parameter. It keeps that shape and its entries are p - alpha.g |
| `DenseLayers.HiddenDeltaShape` | demo06/src/main/java/com/codingapi/deeplearning/demo06/learn/DenseLayer.java:176-178 | if data is batch x next.out, next.w is out x next.out, a is batch x out and the activation's derivative at a has the shape of a (as it has for every conforming activation), then the delta exists and has the shape of a |
| `DenseLayers.WeightGradientWithoutPenalty` | demo06/src/main/java/com/codingapi/deeplearning/demo06/learn/DenseLayer.java:182 | with lambda = 0, dw is exactly transpose(prevA).delta |
| `DenseLayers.WeightGradientOverBatches` | demo06/src/main/java/com/codingapi/deeplearning/demo06/learn/DenseLayer.java:180-182 | with lambda = 0, dw over two stacked batches is the sum of the dw of each batch |
| `DenseLayers.BiasGradientOverBatches` | demo06/src/main/java/com/codingapi/deeplearning/demo06/learn/DenseLayer.java:183-184 | db over two stacked batches is the sum of their db, and db of a single sample is its delta row |
| `DenseLayers.DescendZero` | demo06/src/main/java/com/codingapi/deeplearning/demo06/learn/DenseLayer.java:197-201 | a step with alpha = 0 leaves the parameter unchanged |
| `DenseLayers.DescendUndo` | demo06/src/main/java/com/codingapi/deeplearning/demo06/learn/DenseLayer.java:197-199 | a step of alpha is undone by a step of -alpha along the same gradient |
| `DenseLayers.DenseLayer.constructor` | demo06/src/main/java/com/codingapi/deeplearning/demo06/learn/DenseLayer.java:102-109 | the new layer has the given shape, activation and output flag, nothing assigned yet (no container either), and index 0 |
| `DenseLayers.DenseLayer.Neighbour` | demo06/src/main/java/com/codingapi/deeplearning/demo06/learn/DenseLayer.java:178 | `builder.get(k)` gives the layer at position k of the container, `NoSuchLayer` outside it, and `NullReference` when the layer was never built |
| `DenseLayers.DenseLayer.NextWeights` | demo06/src/main/java/com/codingapi/deeplearning/demo06/learn/DenseLayer.java:178 | the next layer's weights are those of the layer at index + 1; they fail with `NoSuchLayer` when there is no such layer and `NullReference` when its w was never assigned; on a layer that was never built, the lookup fails with `NullReference` |
| `DenseLayers.DenseLayer.PreviousOutput` | demo06/src/main/java/com/codingapi/deeplearning/demo06/learn/DenseLayer.java:181 | the previous activation is x on layer 0 and otherwise the a of the layer at index - 1; it fails when that is missing; on a layer that was never built, the lookup fails with `NullReference` |
| `DenseLayers.DenseLayer.Build` | demo06/src/main/java/com/codingapi/deeplearning/demo06/learn/DenseLayer.java:85-89 | `build` sets the index and the (now present) container and nothing else |
| `DenseLayers.DenseLayer.Init` | demo06/src/main/java/com/codingapi/deeplearning/demo06/learn/DenseLayer.java:94-100 | after `init`, w is in x out and b is 1 x out |
| `DenseLayers.DenseLayer.Forward` | demo06/src/main/java/com/codingapi/deeplearning/demo06/learn/DenseLayer.java:152-162 | fails, changing nothing, if w or b is unassigned. Otherwise x becomes the input exactly when index is 0. The result is the activation's output; after success `a()` returns it, after a refusal a keeps its old value. w, b, delta, dw and db are untouched. With a conforming activation and a batch x in input the result is batch x out |
| `DenseLayers.DenseLayer.Back` | demo06/src/main/java/com/codingapi/deeplearning/demo06/learn/DenseLayer.java:171-188 | fails, changing nothing, if w or b is unassigned. Otherwise delta is `LayerDelta`: the supplied data on the output layer for every lambda. dw is `WeightGradient` of the previous activation and db is the column sum of delta. On success it returns delta and, if w and b had their shapes, dw and db have the shapes of w and b. Only delta, dw and db of this layer change; no neighbour changes |
| `DenseLayers.DenseLayer.UpdateParam` | demo06/src/main/java/com/codingapi/deeplearning/demo06/learn/DenseLayer.java:196-201 | w becomes w - alpha.dw and then b becomes b - alpha.db; a failure on b leaves the new w. Shapes of w and b are kept, alpha = 0 leaves them unchanged, and a, x, delta, dw and db are untouched |
| `TrainingStep.ForwardPass` | demo06/src/main/java/com/codingapi/deeplearning/demo06/learn/DenseLayer.java:152-162 | forward on layer 0 then layer 1 succeeds on fitting shapes: layer 0 keeps the input as x and a batch x hidden output, and layer 1 caches a batch x out prediction |
| `TrainingStep.BackwardPass` | demo06/src/main/java/com/codingapi/deeplearning/demo06/learn/DenseLayer.java:171-188 | back on layer 1 then layer 0 succeeds on fitting shapes: the output layer's delta is the supplied error, the hidden delta has the shape of the hidden output, and every gradient has the shape of its parameter |
| `TrainingStep.UpdatePass` | demo06/src/main/java/com/codingapi/deeplearning/demo06/learn/DenseLayer.java:196-201 | updating both layers after their backward passes keeps the shapes of all parameters |
| `TrainingStep.TwoLayerStep` | demo06/src/main/java/com/codingapi/deeplearning/demo06/learn/DenseLayer.java:152-201 | one step in the order the layers rely on (forward 0, 1; back 1, 0; update) yields a batch x out prediction, the supplied error as the output delta, a batch x hidden delta on the hidden layer, and parameters of unchanged shapes |
| `DenseLayers.DenseLayerBuilder.constructor` | demo06/src/main/java/com/codingapi/deeplearning/demo06/learn/DenseLayer.java:111-122 | a new builder defaults to the sigmoid activation, `isOutLayer == false` and shape 0 x 0 |
| `DenseLayers.DenseLayerBuilder.Input` | demo06/src/main/java/com/codingapi/deeplearning/demo06/learn/DenseLayer.java:124-128 | `input(in, out)` sets the shape and returns the same builder |
| `DenseLayers.DenseLayerBuilder.IsOutLayer` | demo06/src/main/java/com/codingapi/deeplearning/demo06/learn/DenseLayer.java:130-133 | `isOutLayer(flag)` sets the flag and returns the same builder |
| `DenseLayers.DenseLayerBuilder.WithActivation` | demo06/src/main/java/com/codingapi/deeplearning/demo06/learn/DenseLayer.java:135-138 | `activation(act)` sets the activation and returns the same builder |
| `DenseLayers.DenseLayerBuilder.Build` | demo06/src/main/java/com/codingapi/deeplearning/demo06/learn/DenseLayer.java:140-142 | `build()` returns a new layer with the builder's shape, activation and flag, and nothing computed |
| `InputTypes.Wrap32` | demo10/src/main/java/com/codingapi/deeplearning/demo10/learn/core/InputType.java:32 | Java `int` arithmetic: the result is in the 32-bit range and congruent to the exact value modulo 2^32 |
| `InputTypes.OfSize` | demo10/src/main/java/com/codingapi/deeplearning/demo10/learn/core/InputType.java:23-25 | the one-argument constructor stores the size as given; width, height and channel stay 0 |
| `InputTypes.OfDims` | demo10/src/main/java/com/codingapi/deeplearning/demo10/learn/core/InputType.java:27-33 | the three-argument constructor stores width, height and channel as given, with inputSize congruent to their product modulo 2^32 |
| `InputTypes.Wrap32InRange` | demo10/src/main/java/com/codingapi/deeplearning/demo10/learn/core/InputType.java:32 | a value already in the `int` range is not changed by the wrap-around |
| `InputTypes.Wrap32Congruent` | demo10/src/main/java/com/codingapi/deeplearning/demo10/learn/core/InputType.java:32 | two values congruent modulo 2^32 give the same `int`, so the wrap-around depends only on the value modulo 2^32 |
| `InputTypes.OfDimsExact` | demo10/src/main/java/com/codingapi/deeplearning/demo10/learn/core/InputType.java:32 | when width x height x channel fits in an `int`, inputSize is exactly that product |
| `InputTypes.OfDimsStepwise` | demo10/src/main/java/com/codingapi/deeplearning/demo10/learn/core/InputType.java:32 | Java's left-to-right `int` product, wrapping after `width * height` and again after `* channel`, equals the once-wrapped exact product that `OfDims` stores |
| `InputTypes.FlatAgreesWithDims` | demo10/src/main/java/com/codingapi/deeplearning/demo10/learn/core/InputType.java:23-32 | a flat input of size n and an n x 1 x 1 input have the same size |
| `InputTypes.OfDimsWraps` | demo10/src/main/java/com/codingapi/deeplearning/demo10/learn/core/InputType.java:32 | a product beyond the `int` range wraps: 65536 x 65536 x 1 has inputSize 0 |

`InputType` is a datatype, so no operation can change `inputSize` or any other field after
construction; the getters are its fields. The accessors `w()`, `a()` and `isOutLayer()`
are the functions `W`, `A` and `IsOutLayer` of `DenseLayer`. The neighbour lookups read
through them.

## Left out

- Floating-point arithmetic: entries are exact reals, so rounding, convergence and "the error
  decreases after one step" are not modelled.
- The library's sigmoid: it is the parameter `logistic`, about which nothing is assumed.
- The values `Nd4j.rand` draws at lines 97 and 99: `Init` takes them as arguments of the
  right shapes.
- The internals of Nd4j: its operations are re-specified as functions on rectangular
  sequences.
- `Nd4j.sum(., 0)` may return a vector rather than a 1 x out row; it is modelled as a 1 x out
  row, which is the shape of `b` that it is subtracted from.
- Aliasing of `INDArray` objects: matrices are values. `x = data` and `delta = data` store
  a copy, so a caller that later mutates its array in place is not modelled.
- Null arguments are not modelled: a null `data`, a null container passed to `build` (the
  container of a built layer is always present) and a null activation passed to the
  builder's `activation` (the activation is always a value, so the null-pointer failures of
  `forward` and `back` on it do not arise). Negative layer sizes are not modelled either:
  sizes are `nat`, and `Nd4j.rand` would refuse negative ones.
- The container (`NeuralNetworkLayerBuilder`, not part of this model) is the sequence given to
  `Build`. Layers added to it later, and its own construction checks, are not modelled.
- Activations other than the sigmoid: the `Activation` classes are not part of this model,
  and any activation is an `Activation` value.
- Logging (`log.debug`, `log.info`) is left out. Only its effect is kept: a null `w` or
  `b` fails at the start of `forward` and `back`, because the logging calls read their
  shapes.
- `Serializable` and persistence are left out.
- The interface `NeuralNetworkLayer` and its `initLayer` are left out; they have no
  behaviour here.
- The training driver and the ordering of calls it must respect are left out.
  `TrainingStep` shows only one correctly ordered step.
