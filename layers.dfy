/** The four layer kinds of Ex01/NeuralNetwork.py (`InputLayer`,
    `FullyConnectedLayer`, `LinearOutput`, `SoftmaxOutput`): their shapes,
    their forward and backward passes and the caches those passes fill. */
module Layers {
  import opened Outcomes
  import opened Matrices
  import opened Activations

  /** One entry of a shape tuple; `None` stands for a batch size left open
      (`input_shape = (None, 784)`). */
  type Dim = Option<nat>

  /** A layer and all of its attributes.  `lastInput`, `dW` and `db` start
      out absent (`dW = None`, `last_input` not yet set) and are filled by
      `fprop` and `bprop`; `W` and `b` are the parameters. */
  datatype Layer =
    | InputLayer(inputShape: seq<Dim>)
    | FullyConnected(inputShape: seq<Dim>, numUnits: nat, W: Matrix, b: Vector,
                     act: Option<Activation>, lastInput: Option<Matrix>,
                     dW: Option<Matrix>, db: Option<Vector>)
    | LinearOutput(inputSize: seq<Dim>)
    | SoftmaxOutput(inputSize: seq<Dim>)
  {
    /** `isinstance(layer, Parameterized)` */
    predicate Parameterized() { FullyConnected? }

    /** An output layer (one that also has a loss). */
    predicate IsOutput() { LinearOutput? || SoftmaxOutput? }
  }

  /** What construction establishes and every pass keeps: `W` has shape
      (inputs, num_units), `b` has num_units entries, the cached input is as
      wide as `W` is tall, and the gradients, once present, are shaped like
      the parameters. */
  predicate Consistent(l: Layer) {
    l.FullyConnected? ==>
      |l.inputShape| >= 2 && l.inputShape[1] == Some(l.W.rows) &&
      l.W.cols == l.numUnits && |l.b| == l.numUnits &&
      (l.lastInput.Some? ==> l.lastInput.value.cols == l.W.rows) &&
      (l.dW.Some? <==> l.db.Some?) &&
      (l.dW.Some? ==> SameShape(l.dW.value, l.W)) &&
      (l.db.Some? ==> |l.db.value| == |l.b|)
  }

  /** `output_size`: the input layer repeats its shape, a fully connected
      layer keeps the batch dimension and replaces the feature dimension by
      its number of units, an output layer reports `(1,)`. */
  function OutputSize(l: Layer): (s: seq<Dim>)
    requires Consistent(l)
    ensures l.FullyConnected? ==> |s| == 2 && s[0] == l.inputShape[0] && s[1] == Some(l.W.cols)
    ensures l.InputLayer? ==> s == l.inputShape
    ensures l.IsOutput() ==> s == [Some(1)]
  {
    match l
    case InputLayer(shape) => shape
    case FullyConnected(shape, units, _, _, _, _, _, _) => [shape[0], Some(units)]
    case LinearOutput(_) => [Some(1)]
    case SoftmaxOutput(_) => [Some(1)]
  }

  /** `FullyConnectedLayer.__init__`.  The weights come from the previous
      layer's `output_size()[1]`: a shape with fewer than two entries raises
      IndexError and a `None` there raises TypeError.  `draw` supplies the
      normally distributed numbers, the first inputs*units of them for `W`
      (reshaped row by row) and the next num_units for `b`. */
  function NewFullyConnected(prev: Layer, numUnits: nat, draw: nat -> real,
                             act: Option<Activation>): (r: Result<Layer>)
    requires Consistent(prev)
    ensures r.Ok? <==> |OutputSize(prev)| >= 2 && OutputSize(prev)[1].Some?
    ensures |OutputSize(prev)| < 2 ==> r == Err(IndexOutOfRange)
    ensures r.Ok? ==> r.value.FullyConnected? && Consistent(r.value)
    ensures r.Ok? ==> Some(r.value.W.rows) == OutputSize(prev)[1] && r.value.W.cols == numUnits
    ensures r.Ok? ==> r.value.inputShape == OutputSize(prev) && r.value.act == act
    ensures r.Ok? ==> r.value.lastInput.None? && r.value.dW.None? && r.value.db.None?
  {
    var shape := OutputSize(prev);
    if |shape| < 2 then Err(IndexOutOfRange)
    else if shape[1].None? then Err(TypeMismatch)
    else
      var inputs := shape[1].value;
      var w := seq(inputs * numUnits, k requires 0 <= k < inputs * numUnits => draw(k));
      var b := seq(numUnits, k requires 0 <= k < numUnits => draw(inputs * numUnits + k));
      Ok(FullyConnected(shape, numUnits, Reshape(w, inputs, numUnits), b, act, None, None, None))
  }

  // ---------------------------------------------------------------------
  // Forward pass
  // ---------------------------------------------------------------------

  /** The input widths a layer's `fprop` accepts. */
  predicate AcceptsWidth(l: Layer, width: nat) {
    match l
    case FullyConnected(_, _, W, _, _, _, _, _) => width == W.rows
    case SoftmaxOutput(_) => width > 0
    case _ => true
  }

  /** The width of a layer's output for an accepted input width. */
  function OutWidth(l: Layer, width: nat): nat {
    if l.FullyConnected? then l.W.cols else width
  }

  /** Two states of one layer that differ at most in the caches a pass
      writes: kind, shapes, parameters and activation kind all agree. */
  predicate SameWeights(a: Layer, b: Layer) {
    match a
    case FullyConnected(shape, units, W, bias, act, _, _, _) =>
      b.FullyConnected? && b.inputShape == shape && b.numUnits == units &&
      b.W == W && b.b == bias && b.act.Some? == act.Some? &&
      (act.Some? ==> b.act.value.kind == act.value.kind)
    case _ => b == a
  }

  /** The cache a completed `fprop` on `n` samples leaves in a fully
      connected layer: its input, and the activation's pre-image `z`. */
  predicate Primed(l: Layer, n: nat) {
    l.FullyConnected? ==>
      l.lastInput.Some? && l.lastInput.value.rows == n && l.lastInput.value.cols == l.W.rows &&
      (l.act.Some? ==> l.act.value.z.Some? && l.act.value.z.value.rows == n &&
                       l.act.value.z.value.cols == l.W.cols)
  }

  /** `fprop` of each layer kind.  The fully connected layer computes
      `input . W + b` (numpy raises ValueError when the input is not as wide
      as `W` is tall), runs it through the activation if there is one, and
      caches its input; the softmax output layer normalises each row. */
  function Fprop(l: Layer, x: Matrix, math: Math): (r: (Layer, Result<Matrix>))
    requires Consistent(l)
    ensures r.1.Ok? <==> AcceptsWidth(l, x.cols)
    ensures r.1.Ok? ==> r.1.value.rows == x.rows && r.1.value.cols == OutWidth(l, x.cols)
    ensures r.1.Err? ==> r.0 == l
    ensures SameWeights(l, r.0)
    ensures l.FullyConnected? ==> r.0.dW == l.dW && r.0.db == l.db
    ensures Consistent(r.0)
    ensures r.1.Ok? ==> Primed(r.0, x.rows)
    ensures r.1.Ok? && l.FullyConnected? ==> r.0.lastInput == Some(x)
    ensures (l.InputLayer? || l.LinearOutput?) ==> r.1 == Ok(x)
  {
    match l
    case InputLayer(_) => (l, Ok(x))
    case FullyConnected(_, _, W, b, act, _, _, _) =>
      if x.cols != W.rows then (l, Err(ShapeMismatch))
      else
        var z := AddRow(MatMul(x, W), b);
        if act.None? then (l.(lastInput := Some(x)), Ok(z))
        else
          var (a', y) := ActForward(act.value, z, math);
          (l.(act := Some(a'), lastInput := Some(x)), Ok(y))
    case LinearOutput(_) => (l, Ok(x))
    case SoftmaxOutput(_) => (l, Softmax(x, math))
  }

  // ---------------------------------------------------------------------
  // Backward pass
  // ---------------------------------------------------------------------

  /** The upstream gradients a fully connected layer's `bprop` accepts: the
      caches are present, the gradient has the shape of the activation's
      cached input, its rows match the cached input's and its width is the
      number of units, and there is at least one row to average over. */
  predicate BpropAccepts(l: Layer, g: Matrix)
    requires l.FullyConnected?
  {
    (l.act.Some? ==> l.act.value.z.Some? && SameShape(g, l.act.value.z.value)) &&
    l.lastInput.Some? && l.lastInput.value.rows == g.rows && g.cols == l.W.cols &&
    g.rows > 0
  }

  /** `bprop` of each layer kind.  A fully connected layer first passes the
      gradient back through its activation, then stores
      `dW = last_input.T . g / n` and `db = mean(g, axis=0)` and returns
      `g . W.T`.  The input layer passes the gradient through unchanged and
      the output layers raise NotImplementedError. */
  function Bprop(l: Layer, g: Matrix, math: Math): (r: (Layer, Result<Matrix>))
    requires Consistent(l)
    ensures l.IsOutput() ==> r.1 == Err(NotImplemented)
    ensures l.InputLayer? ==> r.1 == Ok(g)
    ensures l.FullyConnected? ==> (r.1.Ok? <==> BpropAccepts(l, g))
    ensures l.FullyConnected? && l.act.Some? && l.act.value.z.None? ==> r.1 == Err(MissingAttribute)
    ensures l.FullyConnected? && l.act.None? && l.lastInput.None? ==> r.1 == Err(MissingAttribute)
    ensures r.1.Err? ==> r.0 == l
    ensures r.1.Ok? ==> r.1.value.rows == g.rows
    ensures r.1.Ok? && l.FullyConnected? ==> r.1.value.cols == l.W.rows && r.0.FullyConnected? && r.0.dW.Some?
    ensures SameWeights(l, r.0)
    ensures l.FullyConnected? ==> r.0.lastInput == l.lastInput && r.0.act == l.act
    ensures Consistent(r.0)
  {
    match l
    case InputLayer(_) => (l, Ok(g))
    case FullyConnected(_, _, W, b, act, lastInput, _, _) =>
      var back := if act.None? then Ok(g) else ActBackward(act.value, g, math);
      if back.Err? then (l, Err(back.error))
      else
        var delta := back.value;
        if lastInput.None? then (l, Err(MissingAttribute))
        else if lastInput.value.rows != delta.rows || delta.cols != W.cols then (l, Err(ShapeMismatch))
        else if delta.rows == 0 then (l, Err(NotANumber))
        else
          var n := delta.rows as real;
          var dW := DivBy(MatMul(Transpose(lastInput.value), delta), n);
          var db := ColumnMean(delta);
          (l.(dW := Some(dW), db := Some(db)), Ok(MatMul(delta, Transpose(W))))
    case LinearOutput(_) => (l, Err(NotImplemented))
    case SoftmaxOutput(_) => (l, Err(NotImplemented))
  }

  /** `input_grad` of the output layers: `Y_pred - Y` for both losses
      (squared error after a linear output, negative log likelihood after a
      softmax).  numpy refuses operands of different shapes; any other layer
      has no `input_grad` attribute. */
  function InputGrad(l: Layer, y: Matrix, yPred: Matrix): (r: Result<Matrix>)
    ensures r.Ok? <==> l.IsOutput() && SameShape(y, yPred)
    ensures !l.IsOutput() ==> r == Err(MissingAttribute)
    ensures r.Ok? ==> SameShape(r.value, y)
    ensures r.Ok? ==> forall i, j :: 0 <= i < y.rows && 0 <= j < y.cols ==>
              r.value.elems[i][j] == yPred.elems[i][j] - y.elems[i][j]
  {
    if !l.IsOutput() then Err(MissingAttribute)
    else if !SameShape(y, yPred) then Err(ShapeMismatch)
    else Ok(SubScaled(yPred, 1.0, y))
  }
}
