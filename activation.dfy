/** The contract a dense layer needs from its activation, and the default sigmoid activation.
    The activation classes themselves are not part of this model. The layer describes the
    sigmoid as z = w.Tx + b with each sample a column, a = sigmoid(z), and the derivative
    taken at the output, a * (1 - a). The batches here hold one sample per row, so that
    formula becomes z = x.w + b, with the bias row added to every row of the batch. */
module Activations {
  import opened Matrices
  import opened Results

  /** `forward(data, w, b)` computes a layer's output from its input and parameters (and may
      refuse incompatible shapes); `back(a)` gives the activation's derivative evaluated at
      an output `a` the layer has already computed. */
  datatype Activation = Activation(
    forward: (Matrix, Matrix, Matrix) -> Result<Matrix>,
    back: Matrix -> Matrix)

  /** An activation that turns a batch x in input and in x out, 1 x out parameters into a
      batch x out output, and whose derivative has the shape of its argument. */
  ghost predicate Conforms(act: Activation) {
    && (forall data: Matrix, w: Matrix, b: Matrix ::
          data.cols == w.rows && HasShape(b, 1, w.cols) ==>
            act.forward(data, w, b).Ok? && HasShape(act.forward(data, w, b).value, data.rows, w.cols))
    && (forall out: Matrix :: SameShape(act.back(out), out))
  }

  /** z = data.w + b, with the bias row added to every row of the batch. */
  function Affine(data: Matrix, w: Matrix, b: Matrix): (z: Matrix)
    requires data.cols == w.rows && HasShape(b, 1, w.cols)
    ensures HasShape(z, data.rows, w.cols)
    ensures forall i, j :: 0 <= i < data.rows && 0 <= j < w.cols ==>
      z.cells[i][j] == Dot(Row(data, i), Column(w, j)) + b.cells[0][j]
  {
    Add(MatMul(data, w), Broadcast(b, data.rows))
  }

  /** The sigmoid layer output: the logistic function of every entry of z = data.w + b, or a
      shape error when `data` does not fit `w` or `b` is not a 1 x out row. */
  function SigmoidForward(logistic: real -> real, data: Matrix, w: Matrix, b: Matrix): (r: Result<Matrix>)
    ensures r.Ok? <==> data.cols == w.rows && HasShape(b, 1, w.cols)
    ensures r.Err? ==> r.error == ShapeMismatch
    ensures r.Ok? ==> HasShape(r.value, data.rows, w.cols)
    ensures r.Ok? ==> forall i, j :: 0 <= i < data.rows && 0 <= j < w.cols ==>
      r.value.cells[i][j] == logistic(Dot(Row(data, i), Column(w, j)) + b.cells[0][j])
  {
    if data.cols == w.rows && HasShape(b, 1, w.cols) then
      Ok(MapEntries(Affine(data, w, b), logistic))
    else
      Err(ShapeMismatch)
  }

  /** The sigmoid derivative expressed through the sigmoid's own output: a * (1 - a). */
  function SigmoidBack(out: Matrix): (d: Matrix)
    ensures SameShape(d, out)
    ensures forall i, j :: 0 <= i < out.rows && 0 <= j < out.cols ==>
      d.cells[i][j] == out.cells[i][j] * (1.0 - out.cells[i][j])
  {
    MapEntries(out, v => v * (1.0 - v))
  }

  /** The default activation of a dense layer; `logistic` stands for the library's sigmoid. */
  function Sigmoid(logistic: real -> real): Activation {
    Activation((data: Matrix, w: Matrix, b: Matrix) => SigmoidForward(logistic, data, w, b), SigmoidBack)
  }

  lemma SigmoidConforms(logistic: real -> real)
    ensures Conforms(Sigmoid(logistic))
  {
  }
}
