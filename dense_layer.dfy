/** A fully-connected layer: its parameters `w` (in x out) and `b` (1 x out), the output `a`
    cached by the forward pass, the raw input `x` kept by the first layer only, and the
    `delta`, `dw`, `db` left by the backward pass. Fields that Java leaves null until they are
    assigned are `Option`s here; reading one that is still `None` fails with `NullReference`,
    as the Java code fails with a null pointer. The layer container is `layers`, the sequence
    given to `Build` (`None` before it, as Java's container reference is null until then),
    consulted by index for the next layer's weights and the previous layer's output. */
module DenseLayers {
  import opened Matrices
  import opened Results
  import opened Activations

  datatype Option<T> = None | Some(value: T)

  // ---------------------------------------------------------------------------------------
  // The formulas of the backward pass and of the update, as functions of the values read

  /** The delta of a layer that is not the output layer: the downstream delta `data` taken
      back through the next layer's weights `nextW` (as looked up), then gated entrywise by
      the activation's derivative at this layer's cached output `a`. */
  function HiddenDelta(act: Activation, data: Matrix, nextW: Result<Matrix>, a: Option<Matrix>): (r: Result<Matrix>)
    ensures nextW.Err? ==> r == Err(nextW.error)
    ensures nextW.Ok? ==>
      (r.Ok? <==> data.cols == nextW.value.cols && a.Some?
                  && HasShape(act.back(a.value), data.rows, nextW.value.rows))
    ensures nextW.Ok? && data.cols != nextW.value.cols ==> r == Err(ShapeMismatch)
    ensures nextW.Ok? && data.cols == nextW.value.cols && a.None? ==> r == Err(NullReference)
    ensures r.Ok? ==> HasShape(r.value, data.rows, nextW.value.rows)
    ensures r.Ok? ==> forall i, j :: 0 <= i < data.rows && 0 <= j < nextW.value.rows ==>
      r.value.cells[i][j] == Dot(Row(data, i), Row(nextW.value, j)) * act.back(a.value).cells[i][j]
  {
    match nextW
    case Err(e) => Err(e)
    case Ok(nw) =>
      if data.cols != nw.cols then Err(ShapeMismatch)
      else
        var propagated := MatMul(data, Transpose(nw));
        match a
        case None => Err(NullReference)
        case Some(out) =>
          var gate := act.back(out);
          if !SameShape(propagated, gate) then Err(ShapeMismatch)
          else
            TimesTransposeAt(data, nw);
            Ok(Hadamard(propagated, gate))
  }

  /** The delta a layer stores: the supplied signal itself on the output layer, the
      propagated delta elsewhere. */
  function LayerDelta(isOutLayer: bool, act: Activation, data: Matrix, nextW: Result<Matrix>, a: Option<Matrix>): (r: Result<Matrix>)
    ensures isOutLayer ==> r == Ok(data)
    ensures !isOutLayer ==> r == HiddenDelta(act, data, nextW, a)
  {
    if isOutLayer then Ok(data) else HiddenDelta(act, data, nextW, a)
  }

  /** dw = transpose(prevA).delta + lambda.w, where `prevA` is the previous activation as
      looked up; a shape error when `prevA` and `delta` do not cover the same batch or the
      product does not have the shape of `w`. */
  function WeightGradient(prevA: Result<Matrix>, delta: Matrix, w: Matrix, lambda: real): (r: Result<Matrix>)
    ensures prevA.Err? ==> r == Err(prevA.error)
    ensures prevA.Ok? ==>
      (r.Ok? <==> prevA.value.rows == delta.rows && prevA.value.cols == w.rows && delta.cols == w.cols)
    ensures prevA.Ok? && r.Err? ==> r.error == ShapeMismatch
    ensures r.Ok? ==> SameShape(r.value, w)
    ensures r.Ok? ==> forall i, j :: 0 <= i < w.rows && 0 <= j < w.cols ==>
      r.value.cells[i][j] == Dot(Column(prevA.value, i), Column(delta, j)) + lambda * w.cells[i][j]
  {
    match prevA
    case Err(e) => Err(e)
    case Ok(prev) =>
      if prev.rows != delta.rows || prev.cols != w.rows || delta.cols != w.cols then
        Err(ShapeMismatch)
      else
        TransposeTimesAt(prev, delta);
        Ok(Add(MatMul(Transpose(prev), delta), Scale(w, lambda)))
  }

  /** p - alpha.g, the gradient-descent step; a shape error when `g` does not have the shape
      of `p`. */
  function Descend(p: Matrix, g: Matrix, alpha: real): (r: Result<Matrix>)
    ensures r.Ok? <==> SameShape(p, g)
    ensures r.Err? ==> r.error == ShapeMismatch
    ensures r.Ok? ==> SameShape(r.value, p)
    ensures r.Ok? ==> forall i, j :: 0 <= i < p.rows && 0 <= j < p.cols ==>
      r.value.cells[i][j] == p.cells[i][j] - alpha * g.cells[i][j]
  {
    if SameShape(p, g) then Ok(Sub(p, Scale(g, alpha))) else Err(ShapeMismatch)
  }

  // ---------------------------------------------------------------------------------------
  // Properties of the formulas

  /** On a hidden layer whose shapes fit (the downstream delta is batch x nextOut, the next
      layer's weights out x nextOut, the cached output batch x out) and whose activation
      derivative at that output has the output's shape, as every conforming activation's
      does, the delta exists and has the shape of the cached output. */
  lemma HiddenDeltaShape(act: Activation, data: Matrix, nextW: Matrix, out: Matrix)
    requires SameShape(act.back(out), out)
    requires data.rows == out.rows && data.cols == nextW.cols && nextW.rows == out.cols
    ensures HiddenDelta(act, data, Ok(nextW), Some(out)).Ok?
    ensures SameShape(HiddenDelta(act, data, Ok(nextW), Some(out)).value, out)
  {
  }

  /** With lambda = 0 the weight gradient is exactly transpose(prevA).delta. */
  lemma WeightGradientWithoutPenalty(prevA: Matrix, delta: Matrix, w: Matrix)
    requires prevA.rows == delta.rows && prevA.cols == w.rows && delta.cols == w.cols
    ensures WeightGradient(Ok(prevA), delta, w, 0.0) == Ok(MatMul(Transpose(prevA), delta))
  {
    AddScaleZero(MatMul(Transpose(prevA), delta), w);
  }

  /** Without the penalty, the weight gradient of a batch made of two batches is the sum of
      the weight gradients of the two. */
  lemma WeightGradientOverBatches(a1: Matrix, a2: Matrix, d1: Matrix, d2: Matrix, w: Matrix)
    requires a1.rows == d1.rows && a2.rows == d2.rows
    requires a1.cols == w.rows && a2.cols == w.rows && d1.cols == w.cols && d2.cols == w.cols
    ensures WeightGradient(Ok(Stack(a1, a2)), Stack(d1, d2), w, 0.0)
         == Ok(Add(WeightGradient(Ok(a1), d1, w, 0.0).value, WeightGradient(Ok(a2), d2, w, 0.0).value))
  {
    WeightGradientWithoutPenalty(Stack(a1, a2), Stack(d1, d2), w);
    WeightGradientWithoutPenalty(a1, d1, w);
    WeightGradientWithoutPenalty(a2, d2, w);
    TransposeProductStack(a1, a2, d1, d2);
  }

  /** The bias gradient of a batch made of two batches is the sum of their bias gradients,
      and that of a single sample is its delta row. */
  lemma BiasGradientOverBatches(d1: Matrix, d2: Matrix)
    requires d1.cols == d2.cols
    ensures ColumnSum(Stack(d1, d2)) == Add(ColumnSum(d1), ColumnSum(d2))
    ensures d1.rows == 1 ==> ColumnSum(d1) == d1
  {
    ColumnSumStack(d1, d2);
    if d1.rows == 1 {
      ColumnSumSingleRow(d1);
    }
  }

  /** A step with learning rate 0 leaves the parameter as it was. */
  lemma DescendZero(p: Matrix, g: Matrix)
    requires SameShape(p, g)
    ensures Descend(p, g, 0.0) == Ok(p)
  {
    SubScaleZero(p, g);
  }

  /** A step of rate alpha is undone by a step of rate -alpha along the same gradient. */
  lemma DescendUndo(p: Matrix, g: Matrix, alpha: real)
    requires SameShape(p, g)
    ensures Descend(p, g, alpha).Ok?
    ensures Descend(Descend(p, g, alpha).value, g, -alpha) == Ok(p)
  {
    SubScaleUndo(p, g, alpha);
  }

  // ---------------------------------------------------------------------------------------
  // The layer

  class DenseLayer {
    var w: Option<Matrix>
    var b: Option<Matrix>
    var a: Option<Matrix>
    var dw: Option<Matrix>
    var db: Option<Matrix>
    var delta: Option<Matrix>
    var x: Option<Matrix>
    const isOutLayer: bool
    var index: int
    var layers: Option<seq<DenseLayer>>
    const activation: Activation
    const inSize: nat
    const outSize: nat

    /** The layer as the builder creates it: shape, activation and output flag set, nothing
        computed yet, index 0 and no container until `Build`. */
    constructor (inSize: nat, outSize: nat, activation: Activation, isOutLayer: bool)
      ensures this.inSize == inSize && this.outSize == outSize
      ensures this.activation == activation && this.isOutLayer == isOutLayer
      ensures w == None && b == None && a == None && x == None
      ensures delta == None && dw == None && db == None
      ensures index == 0 && layers == None
    {
      this.inSize := inSize;
      this.outSize := outSize;
      this.activation := activation;
      this.isOutLayer := isOutLayer;
      w, b, a, x := None, None, None, None;
      delta, dw, db := None, None, None;
      index := 0;
      layers := None;
    }

    /** The accessor `w()`. */
    function W(): Option<Matrix>
      reads this
    {
      w
    }

    /** The accessor `a()`. */
    function A(): Option<Matrix>
      reads this
    {
      a
    }

    /** The accessor `isOutLayer()`. */
    function IsOutLayer(): bool {
      isOutLayer
    }

    /** The parameters exist and have the layer's shapes: w is in x out, b is 1 x out. */
    predicate ParamsShaped()
      reads this
    {
      w.Some? && HasShape(w.value, inSize, outSize) && b.Some? && HasShape(b.value, 1, outSize)
    }

    /** The gradients exist and have the shapes of the parameters they belong to. */
    predicate GradientsShaped()
      reads this
    {
      && w.Some? && dw.Some? && SameShape(dw.value, w.value)
      && b.Some? && db.Some? && SameShape(db.value, b.value)
    }

    /** The layers of the container, none before `Build`. */
    function Container(): seq<DenseLayer>
      reads this
    {
      if layers.Some? then layers.value else []
    }

    /** `builder.get(k)`: the layer at position `k` of the container; a null reference when
        the layer was never built. */
    function Neighbour(k: int): (r: Result<DenseLayer>)
      reads this
      ensures layers.None? ==> r == Err(NullReference)
      ensures layers.Some? ==> (r.Ok? <==> 0 <= k < |layers.value|)
      ensures r.Ok? ==> r.value == layers.value[k]
      ensures layers.Some? && r.Err? ==> r.error == NoSuchLayer
    {
      match layers
      case None => Err(NullReference)
      case Some(ls) => if 0 <= k < |ls| then Ok(ls[k]) else Err(NoSuchLayer)
    }

    /** `builder.get(index + 1).w()`, failing when there is no such layer or its weights
        were never assigned. */
    function NextWeights(): (r: Result<Matrix>)
      reads this, Container()
      ensures layers.None? ==> r == Err(NullReference)
      ensures layers.Some? ==>
        (r.Ok? <==> 0 <= index + 1 < |layers.value| && layers.value[index + 1].w.Some?)
      ensures r.Ok? ==> r.value == layers.value[index + 1].w.value
      ensures layers.Some? && !(0 <= index + 1 < |layers.value|) ==> r == Err(NoSuchLayer)
      ensures layers.Some? && r.Err? && 0 <= index + 1 < |layers.value| ==> r == Err(NullReference)
    {
      match Neighbour(index + 1)
      case Err(e) => Err(e)
      case Ok(next) => if next.W().Some? then Ok(next.W().value) else Err(NullReference)
    }

    /** The previous activation: the stored input `x` on layer 0, otherwise
        `builder.get(index - 1).a()`; failing when it was never assigned or there is no
        such layer. */
    function PreviousOutput(): (r: Result<Matrix>)
      reads this, Container()
      ensures index == 0 ==> r == (if x.Some? then Ok(x.value) else Err(NullReference))
      ensures index != 0 && layers.None? ==> r == Err(NullReference)
      ensures index != 0 && layers.Some? ==>
        (r.Ok? <==> 0 <= index - 1 < |layers.value| && layers.value[index - 1].a.Some?)
      ensures index != 0 && r.Ok? ==> r.value == layers.value[index - 1].a.value
      ensures index != 0 && layers.Some? && !(0 <= index - 1 < |layers.value|) ==> r == Err(NoSuchLayer)
    {
      if index == 0 then
        (if x.Some? then Ok(x.value) else Err(NullReference))
      else
        match Neighbour(index - 1)
        case Err(e) => Err(e)
        case Ok(prev) => if prev.A().Some? then Ok(prev.A().value) else Err(NullReference)
    }

    /** `build`: records the layer's position and its container, nothing else. */
    method Build(layers: seq<DenseLayer>, index: int)
      modifies this`layers, this`index
      ensures this.layers == Some(layers) && this.index == index
    {
      this.layers := Some(layers);
      this.index := index;
    }

    /** `init`: w becomes an in x out matrix and b a 1 x out row, with the values the random
        generator supplies. */
    method Init(randomW: Matrix, randomB: Matrix)
      requires HasShape(randomW, inSize, outSize) && HasShape(randomB, 1, outSize)
      modifies this`w, this`b
      ensures w == Some(randomW) && b == Some(randomB)
      ensures ParamsShaped()
    {
      w := Some(randomW);
      b := Some(randomB);
    }

    /** `forward`: fails before touching anything when the parameters were never assigned;
        otherwise stores the input as `x` on layer 0 only, then computes the activation,
        caches it as `a` and returns it. When the activation refuses the input, `x` has
        already been stored and `a` keeps its previous value. */
    method Forward(data: Matrix) returns (r: Result<Matrix>)
      modifies this`x, this`a
      ensures old(w).None? || old(b).None? ==> r == Err(NullReference) && x == old(x) && a == old(a)
      ensures old(w).Some? && old(b).Some? ==>
        && x == (if index == 0 then Some(data) else old(x))
        && r == activation.forward(data, w.value, b.value)
        && A() == (if r.Ok? then Some(r.value) else old(a))
      ensures Conforms(activation) && ParamsShaped() && data.cols == inSize ==>
        r.Ok? && HasShape(r.value, data.rows, outSize)
    {
      if w.None? || b.None? {
        return Err(NullReference);
      }
      if index == 0 {
        x := Some(data);
      }
      r := activation.forward(data, w.value, b.value);
      if r.Ok? {
        a := Some(r.value);
      }
    }

    /** `back`: fails before touching anything when the parameters were never assigned.
        Otherwise `delta` becomes the supplied signal on the output layer, or the propagated
        delta elsewhere; then `dw` and `db` are derived from it and the previous activation,
        and `delta` is returned. A failure while computing the delta changes nothing; a
        failure while computing `dw` leaves the new `delta` stored and `dw`, `db` as they were. */
    method Back(data: Matrix, lambda: real) returns (r: Result<Matrix>)
      modifies this`delta, this`dw, this`db
      ensures old(w).None? || old(b).None? ==>
        r == Err(NullReference) && delta == old(delta) && dw == old(dw) && db == old(db)
      ensures old(w).Some? && old(b).Some? ==>
        var d := LayerDelta(isOutLayer, activation, data, old(NextWeights()), old(a));
        && (d.Err? ==> r == d && delta == old(delta) && dw == old(dw) && db == old(db))
        && (d.Ok? ==>
              var g := WeightGradient(old(PreviousOutput()), d.value, w.value, lambda);
              && delta == Some(d.value)
              && (g.Err? ==> r == Err(g.error) && dw == old(dw) && db == old(db))
              && (g.Ok? ==> r == d && dw == Some(g.value) && db == Some(ColumnSum(d.value))))
      ensures isOutLayer && old(w).Some? && old(b).Some? ==> delta == Some(data)
      ensures old(ParamsShaped()) && r.Ok? ==> GradientsShaped()
      ensures forall k :: 0 <= k < |Container()| && Container()[k] != this ==> unchanged(Container()[k])
    {
      if w.None? || b.None? {
        return Err(NullReference);
      }
      var d := LayerDelta(isOutLayer, activation, data, NextWeights(), a);
      if d.Err? {
        return d;
      }
      delta := Some(d.value);
      var g := WeightGradient(PreviousOutput(), d.value, w.value, lambda);
      if g.Err? {
        return Err(g.error);
      }
      dw := Some(g.value);
      db := Some(ColumnSum(d.value));
      r := d;
    }

    /** `updateParam`: w := w - alpha.dw, then b := b - alpha.db. A failure on w changes
        nothing; a failure on b leaves the new w in place. */
    method UpdateParam(alpha: real) returns (r: Outcome)
      modifies this`w, this`b
      ensures old(w).None? || old(dw).None? ==> r == Fail(NullReference) && w == old(w) && b == old(b)
      ensures old(w).Some? && old(dw).Some? ==>
        var sw := Descend(old(w).value, dw.value, alpha);
        && (sw.Err? ==> r == Fail(sw.error) && w == old(w) && b == old(b))
        && (sw.Ok? ==>
              && w == Some(sw.value)
              && (old(b).None? || db.None? ==> r == Fail(NullReference) && b == old(b))
              && (old(b).Some? && db.Some? ==>
                    var sb := Descend(old(b).value, db.value, alpha);
                    && (sb.Err? ==> r == Fail(sb.error) && b == old(b))
                    && (sb.Ok? ==> r == Pass && b == Some(sb.value))))
      ensures old(ParamsShaped()) ==> ParamsShaped()
      ensures alpha == 0.0 && r == Pass ==> w == old(w) && b == old(b)
    {
      if w.None? || dw.None? {
        return Fail(NullReference);
      }
      var sw := Descend(w.value, dw.value, alpha);
      if sw.Err? {
        return Fail(sw.error);
      }
      if alpha == 0.0 {
        DescendZero(w.value, dw.value);
      }
      w := Some(sw.value);
      if b.None? || db.None? {
        return Fail(NullReference);
      }
      var sb := Descend(b.value, db.value, alpha);
      if sb.Err? {
        return Fail(sb.error);
      }
      if alpha == 0.0 {
        DescendZero(b.value, db.value);
      }
      b := Some(sb.value);
      r := Pass;
    }
  }

  /** `DenseLayer.builder()` and its fluent setters. */
  class DenseLayerBuilder {
    var inSize: nat
    var outSize: nat
    var activation: Activation
    var isOutLayer: bool

    /** A fresh builder: shape 0 x 0, the sigmoid activation, not an output layer.
        `logistic` stands for the library's sigmoid function. */
    constructor (logistic: real -> real)
      ensures inSize == 0 && outSize == 0
      ensures activation == Sigmoid(logistic) && !isOutLayer
    {
      inSize, outSize := 0, 0;
      activation := Sigmoid(logistic);
      isOutLayer := false;
    }

    /** `input(in, out)`. */
    method Input(inSize: nat, outSize: nat) returns (self: DenseLayerBuilder)
      modifies this`inSize, this`outSize
      ensures self == this && this.inSize == inSize && this.outSize == outSize
    {
      this.inSize, this.outSize := inSize, outSize;
      self := this;
    }

    /** `isOutLayer(flag)`. */
    method IsOutLayer(isOutLayer: bool) returns (self: DenseLayerBuilder)
      modifies this`isOutLayer
      ensures self == this && this.isOutLayer == isOutLayer
    {
      this.isOutLayer := isOutLayer;
      self := this;
    }

    /** `activation(act)`. */
    method WithActivation(activation: Activation) returns (self: DenseLayerBuilder)
      modifies this`activation
      ensures self == this && this.activation == activation
    {
      this.activation := activation;
      self := this;
    }

    /** `build()`: a new layer with the builder's shape, activation and output flag. */
    method Build() returns (layer: DenseLayer)
      ensures fresh(layer)
      ensures layer.inSize == inSize && layer.outSize == outSize
      ensures layer.activation == activation && layer.isOutLayer == isOutLayer
      ensures layer.w == None && layer.b == None && layer.a == None && layer.x == None
      ensures layer.delta == None && layer.dw == None && layer.db == None
      ensures layer.index == 0 && layer.layers == None
    {
      layer := new DenseLayer(inSize, outSize, activation, isOutLayer);
    }
  }
}
