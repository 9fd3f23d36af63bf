/** A client of the layer protocol: one correctly ordered training step of a two-layer
    network, a hidden layer at index 0 and the output layer at index 1, as the training
    driver performs it. */
module TrainingStep {
  import opened Matrices
  import opened Results
  import opened Activations
  import opened DenseLayers

  /** The two layers form a network: both see the container [hidden, output], the hidden
      layer feeds the output layer, and only the output layer is marked as such. */
  predicate TwoLayerNetwork(hidden: DenseLayer, output: DenseLayer)
    reads hidden, output
  {
    && hidden != output
    && hidden.layers == Some([hidden, output]) && output.layers == Some([hidden, output])
    && hidden.index == 0 && output.index == 1
    && !hidden.isOutLayer && output.isOutLayer
    && hidden.outSize == output.inSize
  }

  /** Forward in increasing index order: the hidden layer keeps the input and its output,
      the output layer caches the prediction, which is batch x out. */
  method ForwardPass(hidden: DenseLayer, output: DenseLayer, input: Matrix)
    returns (prediction: Matrix)
    requires TwoLayerNetwork(hidden, output)
    requires Conforms(hidden.activation) && Conforms(output.activation)
    requires hidden.ParamsShaped() && output.ParamsShaped()
    requires input.cols == hidden.inSize
    modifies hidden`x, hidden`a, output`x, output`a
    ensures hidden.x == Some(input)
    ensures hidden.a.Some? && HasShape(hidden.a.value, input.rows, hidden.outSize)
    ensures HasShape(prediction, input.rows, output.outSize) && output.a == Some(prediction)
  {
    var h := hidden.Forward(input);
    var y := output.Forward(h.value);
    prediction := y.value;
  }

  /** Back in decreasing index order: both calls succeed, the output layer's delta is the
      supplied error, the hidden delta has the shape of the hidden output, and every
      gradient has the shape of its parameter. */
  method BackwardPass(hidden: DenseLayer, output: DenseLayer, error: Matrix, lambda: real)
    requires TwoLayerNetwork(hidden, output)
    requires Conforms(hidden.activation)
    requires hidden.ParamsShaped() && output.ParamsShaped()
    requires hidden.x.Some? && hidden.x.value.cols == hidden.inSize
    requires hidden.a.Some? && HasShape(hidden.a.value, hidden.x.value.rows, hidden.outSize)
    requires HasShape(error, hidden.x.value.rows, output.outSize)
    modifies hidden`delta, hidden`dw, hidden`db, output`delta, output`dw, output`db
    ensures output.delta == Some(error)
    ensures hidden.delta.Some? && SameShape(hidden.delta.value, hidden.a.value)
    ensures hidden.GradientsShaped() && output.GradientsShaped()
  {
    var d1 := output.Back(error, lambda);
    assert d1 == Ok(error);
    HiddenDeltaShape(hidden.activation, error, output.w.value, hidden.a.value);
    var d0 := hidden.Back(d1.value, lambda);
  }

  /** The updates of both layers succeed and keep every parameter's shape. */
  method UpdatePass(hidden: DenseLayer, output: DenseLayer, alpha: real)
    requires hidden != output
    requires hidden.ParamsShaped() && output.ParamsShaped()
    requires hidden.GradientsShaped() && output.GradientsShaped()
    modifies hidden`w, hidden`b, output`w, output`b
    ensures hidden.ParamsShaped() && output.ParamsShaped()
  {
    var u1 := output.UpdateParam(alpha);
    var u0 := hidden.UpdateParam(alpha);
  }

  /** One training step: the forward pass, the backward pass with the error the driver
      computes from the prediction (here a parameter), then the updates. */
  method TwoLayerStep(hidden: DenseLayer, output: DenseLayer, input: Matrix,
                      error: Matrix, lambda: real, alpha: real)
    returns (prediction: Matrix)
    requires TwoLayerNetwork(hidden, output)
    requires Conforms(hidden.activation) && Conforms(output.activation)
    requires hidden.ParamsShaped() && output.ParamsShaped()
    requires input.cols == hidden.inSize
    requires HasShape(error, input.rows, output.outSize)
    modifies hidden, output
    ensures HasShape(prediction, input.rows, output.outSize) && output.a == Some(prediction)
    ensures output.delta == Some(error)
    ensures hidden.delta.Some? && HasShape(hidden.delta.value, input.rows, hidden.outSize)
    ensures hidden.ParamsShaped() && output.ParamsShaped()
  {
    prediction := ForwardPass(hidden, output, input);
    BackwardPass(hidden, output, error, lambda);
    UpdatePass(hidden, output, alpha);
  }
}
