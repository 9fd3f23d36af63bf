/** Rank-2 arrays of reals and the Nd4j operations a dense layer uses on them:
    `mmul` (matrix product), `mul` (elementwise product, or product with a scalar),
    `add`, `sub`, `transpose`, `broadcast` of a row, and `Nd4j.sum(m, 0)` (the sum
    over the rows, that is over the batch). Shapes are explicit, as in `INDArray.shape()`;
    an operation on incompatible shapes is excluded by its `requires`, and the layer checks
    the shapes itself where Nd4j would throw. */
module Matrices {

  /** The raw representation: a shape and the rows of entries. */
  datatype NDArray = NDArray(rows: nat, cols: nat, cells: seq<seq<real>>)
  {
    predicate WellFormed() {
      |cells| == rows && forall i :: 0 <= i < rows ==> |cells[i]| == cols
    }
  }

  /** A rectangular matrix whose shape is `rows` x `cols`. */
  type Matrix = m: NDArray | m.WellFormed() witness NDArray(0, 0, [])

  predicate HasShape(m: Matrix, r: nat, c: nat) {
    m.rows == r && m.cols == c
  }

  predicate SameShape(p: Matrix, q: Matrix) {
    p.rows == q.rows && p.cols == q.cols
  }

  function Row(m: Matrix, i: nat): (r: seq<real>)
    requires i < m.rows
    ensures |r| == m.cols
  {
    m.cells[i]
  }

  function Column(m: Matrix, j: nat): (c: seq<real>)
    requires j < m.cols
    ensures |c| == m.rows
    ensures forall i :: 0 <= i < m.rows ==> c[i] == m.cells[i][j]
  {
    seq(m.rows, i requires 0 <= i < m.rows => m.cells[i][j])
  }

  /** The sum of a sequence of reals. */
  function Sum(s: seq<real>): real {
    if s == [] then 0.0 else s[0] + Sum(s[1..])
  }

  /** The inner product of two sequences of the same length. */
  function Dot(u: seq<real>, v: seq<real>): real
    requires |u| == |v|
  {
    if u == [] then 0.0 else u[0] * v[0] + Dot(u[1..], v[1..])
  }

  function Zeros(r: nat, c: nat): (z: Matrix)
    ensures HasShape(z, r, c)
    ensures forall i, j :: 0 <= i < r && 0 <= j < c ==> z.cells[i][j] == 0.0
  {
    NDArray(r, c, seq(r, i => seq(c, j => 0.0)))
  }

  /** `transpose`: the entry (i, j) of the result is the entry (j, i) of `m`. */
  function Transpose(m: Matrix): (t: Matrix)
    ensures HasShape(t, m.cols, m.rows)
    ensures forall i, j :: 0 <= i < m.cols && 0 <= j < m.rows ==> t.cells[i][j] == m.cells[j][i]
  {
    NDArray(m.cols, m.rows,
      seq(m.cols, i requires 0 <= i < m.cols =>
        seq(m.rows, j requires 0 <= j < m.rows => m.cells[j][i])))
  }

  /** `mmul`: (A, B) x (B, C) => (A, C), each entry a row of `p` times a column of `q`. */
  function MatMul(p: Matrix, q: Matrix): (r: Matrix)
    requires p.cols == q.rows
    ensures HasShape(r, p.rows, q.cols)
    ensures forall i, j :: 0 <= i < p.rows && 0 <= j < q.cols ==>
      r.cells[i][j] == Dot(Row(p, i), Column(q, j))
  {
    NDArray(p.rows, q.cols,
      seq(p.rows, i requires 0 <= i < p.rows =>
        seq(q.cols, j requires 0 <= j < q.cols => Dot(Row(p, i), Column(q, j)))))
  }

  /** `mul` of two matrices of the same shape: the entrywise product. */
  function Hadamard(p: Matrix, q: Matrix): (r: Matrix)
    requires SameShape(p, q)
    ensures SameShape(r, p)
    ensures forall i, j :: 0 <= i < p.rows && 0 <= j < p.cols ==>
      r.cells[i][j] == p.cells[i][j] * q.cells[i][j]
  {
    NDArray(p.rows, p.cols,
      seq(p.rows, i requires 0 <= i < p.rows =>
        seq(p.cols, j requires 0 <= j < p.cols => p.cells[i][j] * q.cells[i][j])))
  }

  /** `add` of two matrices of the same shape. */
  function Add(p: Matrix, q: Matrix): (r: Matrix)
    requires SameShape(p, q)
    ensures SameShape(r, p)
    ensures forall i, j :: 0 <= i < p.rows && 0 <= j < p.cols ==>
      r.cells[i][j] == p.cells[i][j] + q.cells[i][j]
  {
    NDArray(p.rows, p.cols,
      seq(p.rows, i requires 0 <= i < p.rows =>
        seq(p.cols, j requires 0 <= j < p.cols => p.cells[i][j] + q.cells[i][j])))
  }

  /** `sub` of two matrices of the same shape. */
  function Sub(p: Matrix, q: Matrix): (r: Matrix)
    requires SameShape(p, q)
    ensures SameShape(r, p)
    ensures forall i, j :: 0 <= i < p.rows && 0 <= j < p.cols ==>
      r.cells[i][j] == p.cells[i][j] - q.cells[i][j]
  {
    NDArray(p.rows, p.cols,
      seq(p.rows, i requires 0 <= i < p.rows =>
        seq(p.cols, j requires 0 <= j < p.cols => p.cells[i][j] - q.cells[i][j])))
  }

  /** `mul` by a scalar. */
  function Scale(m: Matrix, k: real): (r: Matrix)
    ensures SameShape(r, m)
    ensures forall i, j :: 0 <= i < m.rows && 0 <= j < m.cols ==> r.cells[i][j] == k * m.cells[i][j]
  {
    NDArray(m.rows, m.cols,
      seq(m.rows, i requires 0 <= i < m.rows =>
        seq(m.cols, j requires 0 <= j < m.cols => k * m.cells[i][j])))
  }

  /** `Nd4j.sum(m, 0)`: one row holding the sum of every column over all rows. */
  function ColumnSum(m: Matrix): (r: Matrix)
    ensures HasShape(r, 1, m.cols)
    ensures forall j :: 0 <= j < m.cols ==> r.cells[0][j] == Sum(Column(m, j))
  {
    NDArray(1, m.cols, [seq(m.cols, j requires 0 <= j < m.cols => Sum(Column(m, j)))])
  }

  /** `broadcast` of a single row to `n` identical rows. */
  function Broadcast(v: Matrix, n: nat): (r: Matrix)
    requires v.rows == 1
    ensures HasShape(r, n, v.cols)
    ensures forall i, j :: 0 <= i < n && 0 <= j < v.cols ==> r.cells[i][j] == v.cells[0][j]
  {
    NDArray(n, v.cols, seq(n, i => v.cells[0]))
  }

  /** A scalar function applied to every entry. */
  function MapEntries(m: Matrix, f: real -> real): (r: Matrix)
    ensures SameShape(r, m)
    ensures forall i, j :: 0 <= i < m.rows && 0 <= j < m.cols ==> r.cells[i][j] == f(m.cells[i][j])
  {
    NDArray(m.rows, m.cols,
      seq(m.rows, i requires 0 <= i < m.rows =>
        seq(m.cols, j requires 0 <= j < m.cols => f(m.cells[i][j]))))
  }

  /** The rows of `p` followed by the rows of `q`: two batches joined into one. */
  function Stack(p: Matrix, q: Matrix): (r: Matrix)
    requires p.cols == q.cols
    ensures HasShape(r, p.rows + q.rows, p.cols)
    ensures forall i :: 0 <= i < p.rows ==> Row(r, i) == Row(p, i)
    ensures forall i :: 0 <= i < q.rows ==> Row(r, p.rows + i) == Row(q, i)
  {
    NDArray(p.rows + q.rows, p.cols, p.cells + q.cells)
  }

  // ---------------------------------------------------------------------------------------
  // Laws of the operations

  /** Two matrices of the same shape with the same entries are equal. */
  lemma MatrixExt(p: Matrix, q: Matrix)
    requires SameShape(p, q)
    requires forall i, j :: 0 <= i < p.rows && 0 <= j < p.cols ==> p.cells[i][j] == q.cells[i][j]
    ensures p == q
  {
    forall i | 0 <= i < p.rows
      ensures p.cells[i] == q.cells[i]
    {
      assert |p.cells[i]| == |q.cells[i]| == p.cols;
    }
    assert p.cells == q.cells;
  }

  lemma TransposeInvolutive(m: Matrix)
    ensures Transpose(Transpose(m)) == m
  {
    MatrixExt(Transpose(Transpose(m)), m);
  }

  /** A row of the transpose is a column of the original. */
  lemma RowOfTranspose(m: Matrix, i: nat)
    requires i < m.cols
    ensures Row(Transpose(m), i) == Column(m, i)
  {
  }

  /** Entry (i, j) of transpose(p).q pairs column i of p with column j of q. */
  lemma TransposeTimesAt(p: Matrix, q: Matrix)
    requires p.rows == q.rows
    ensures forall i, j :: 0 <= i < p.cols && 0 <= j < q.cols ==>
      MatMul(Transpose(p), q).cells[i][j] == Dot(Column(p, i), Column(q, j))
  {
    forall i | 0 <= i < p.cols
      ensures Row(Transpose(p), i) == Column(p, i)
    {
      RowOfTranspose(p, i);
    }
  }

  /** Entry (i, j) of p.transpose(q) pairs row i of p with row j of q. */
  lemma TimesTransposeAt(p: Matrix, q: Matrix)
    requires p.cols == q.cols
    ensures forall i, j :: 0 <= i < p.rows && 0 <= j < q.rows ==>
      MatMul(p, Transpose(q)).cells[i][j] == Dot(Row(p, i), Row(q, j))
  {
    TransposeInvolutive(q);
    forall j | 0 <= j < q.rows
      ensures Column(Transpose(q), j) == Row(q, j)
    {
      RowOfTranspose(Transpose(q), j);
    }
  }

  lemma {:induction false} SumAppend(s: seq<real>, t: seq<real>)
    ensures Sum(s + t) == Sum(s) + Sum(t)
  {
    if s == [] {
      assert s + t == t;
    } else {
      assert (s + t)[1..] == s[1..] + t;
      SumAppend(s[1..], t);
    }
  }

  lemma {:induction false} DotAppend(u1: seq<real>, u2: seq<real>, v1: seq<real>, v2: seq<real>)
    requires |u1| == |v1| && |u2| == |v2|
    ensures Dot(u1 + u2, v1 + v2) == Dot(u1, v1) + Dot(u2, v2)
  {
    if u1 == [] {
      assert u1 + u2 == u2 && v1 + v2 == v2;
    } else {
      assert (u1 + u2)[1..] == u1[1..] + u2;
      assert (v1 + v2)[1..] == v1[1..] + v2;
      DotAppend(u1[1..], u2, v1[1..], v2);
    }
  }

  lemma ColumnOfStack(p: Matrix, q: Matrix, j: nat)
    requires p.cols == q.cols && j < p.cols
    ensures Column(Stack(p, q), j) == Column(p, j) + Column(q, j)
  {
  }

  /** Adding the scaled matrix with factor 0 leaves a matrix as it was. */
  lemma AddScaleZero(m: Matrix, w: Matrix)
    requires SameShape(m, w)
    ensures Add(m, Scale(w, 0.0)) == m
  {
    MatrixExt(Add(m, Scale(w, 0.0)), m);
  }

  /** Subtracting the scaled matrix with factor 0 leaves a matrix as it was. */
  lemma SubScaleZero(p: Matrix, g: Matrix)
    requires SameShape(p, g)
    ensures Sub(p, Scale(g, 0.0)) == p
  {
    MatrixExt(Sub(p, Scale(g, 0.0)), p);
  }

  /** A step of size `alpha` along `g` is undone by a step of size `-alpha`. */
  lemma SubScaleUndo(p: Matrix, g: Matrix, alpha: real)
    requires SameShape(p, g)
    ensures Sub(Sub(p, Scale(g, alpha)), Scale(g, -alpha)) == p
  {
    MatrixExt(Sub(Sub(p, Scale(g, alpha)), Scale(g, -alpha)), p);
  }

  /** Summing over a batch of one row gives that row back. */
  lemma ColumnSumSingleRow(m: Matrix)
    requires m.rows == 1
    ensures ColumnSum(m) == m
  {
    forall j | 0 <= j < m.cols
      ensures ColumnSum(m).cells[0][j] == m.cells[0][j]
    {
      var c := Column(m, j);
      assert c == [m.cells[0][j]];
      assert Sum(c) == c[0] + Sum(c[1..]);
      assert c[1..] == [];
    }
    MatrixExt(ColumnSum(m), m);
  }

  /** Summing over an empty batch gives a row of zeros. */
  lemma ColumnSumEmpty(m: Matrix)
    requires m.rows == 0
    ensures ColumnSum(m) == Zeros(1, m.cols)
  {
    forall j | 0 <= j < m.cols
      ensures ColumnSum(m).cells[0][j] == 0.0
    {
      assert Column(m, j) == [];
    }
    MatrixExt(ColumnSum(m), Zeros(1, m.cols));
  }

  /** The sum over a batch made of two batches is the sum of their sums. */
  lemma ColumnSumStack(p: Matrix, q: Matrix)
    requires p.cols == q.cols
    ensures ColumnSum(Stack(p, q)) == Add(ColumnSum(p), ColumnSum(q))
  {
    forall j | 0 <= j < p.cols
      ensures ColumnSum(Stack(p, q)).cells[0][j] == ColumnSum(p).cells[0][j] + ColumnSum(q).cells[0][j]
    {
      ColumnOfStack(p, q, j);
      SumAppend(Column(p, j), Column(q, j));
    }
    MatrixExt(ColumnSum(Stack(p, q)), Add(ColumnSum(p), ColumnSum(q)));
  }

  /** The product `transpose(a) x d` over a batch made of two batches is the sum of the
      products over each batch. */
  lemma TransposeProductStack(a1: Matrix, a2: Matrix, d1: Matrix, d2: Matrix)
    requires a1.cols == a2.cols && d1.cols == d2.cols
    requires a1.rows == d1.rows && a2.rows == d2.rows
    ensures MatMul(Transpose(Stack(a1, a2)), Stack(d1, d2))
         == Add(MatMul(Transpose(a1), d1), MatMul(Transpose(a2), d2))
  {
    var lhs := MatMul(Transpose(Stack(a1, a2)), Stack(d1, d2));
    var rhs := Add(MatMul(Transpose(a1), d1), MatMul(Transpose(a2), d2));
    forall i, j | 0 <= i < a1.cols && 0 <= j < d1.cols
      ensures lhs.cells[i][j] == rhs.cells[i][j]
    {
      RowOfTranspose(Stack(a1, a2), i);
      RowOfTranspose(a1, i);
      RowOfTranspose(a2, i);
      ColumnOfStack(a1, a2, i);
      ColumnOfStack(d1, d2, j);
      DotAppend(Column(a1, i), Column(a2, i), Column(d1, j), Column(d2, j));
    }
    MatrixExt(lhs, rhs);
  }
}
