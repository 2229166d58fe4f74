/** The activation functions of Ex01/NeuralNetwork.py and the `Activation`
    object that binds one of them by name and caches its last input. */
module Activations {
  import opened Outcomes
  import opened Matrices

  datatype ActKind = SigmoidAct | TanhAct | ReluAct

  /** The name each kind is requested by. */
  function ActName(k: ActKind): string {
    match k
    case SigmoidAct => "sigmoid"
    case TanhAct => "tanh"
    case ReluAct => "relu"
  }

  /** `Activation.__init__`: exactly three names are accepted; any other
      raises ValueError. */
  function ParseActivation(tname: string): (r: Result<ActKind>)
    ensures r.Ok? <==> tname in {"sigmoid", "tanh", "relu"}
    ensures r.Ok? ==> ActName(r.value) == tname
    ensures r.Err? ==> r.error == InvalidActivation
  {
    if tname == "sigmoid" then Ok(SigmoidAct)
    else if tname == "tanh" then Ok(TanhAct)
    else if tname == "relu" then Ok(ReluAct)
    else Err(InvalidActivation)
  }

  /** Every kind is reachable by its own name. */
  lemma ParseName(k: ActKind)
    ensures ParseActivation(ActName(k)) == Ok(k)
  {
  }

  /** The transcendental functions the source takes from numpy. */
  type PositiveFn = f: real -> real | forall t :: f(t) > 0.0 witness (t: real) => 1.0

  datatype Math = Math(exp: PositiveFn, tanh: real -> real)

  /** `relu`: np.maximum(0.0, x). */
  function Relu(x: real): (r: real)
    ensures r >= 0.0 && r >= x
    ensures r == x || r == 0.0
  {
    if x > 0.0 then x else 0.0
  }

  /** `relu_d`: a zero array with 1 written where the input is positive. */
  function ReluD(x: real): (r: real)
    ensures r == 1.0 <==> x > 0.0
    ensures r == 0.0 <==> x <= 0.0
  {
    if x > 0.0 then 1.0 else 0.0
  }

  /** relu and its derivative agree: relu(x) == x * relu_d(x) for every x,
      so the mask selects exactly the inputs relu passes through. */
  lemma ReluIsMaskedIdentity(x: real)
    ensures Relu(x) == x * ReluD(x)
  {
  }

  function SigmoidOf(math: Math, x: real): real {
    1.0 / (1.0 + math.exp(-x))
  }

  function Activate(k: ActKind, math: Math, x: real): real {
    match k
    case SigmoidAct => SigmoidOf(math, x)
    case TanhAct => math.tanh(x)
    case ReluAct => Relu(x)
  }

  function Derivative(k: ActKind, math: Math, x: real): real {
    match k
    case SigmoidAct => SigmoidOf(math, x) * (1.0 - SigmoidOf(math, x))
    case TanhAct => 1.0 - math.tanh(x) * math.tanh(x)
    case ReluAct => ReluD(x)
  }

  /** The relu derivative applied to a whole array is the mask of its
      positive entries. */
  function ReluMask(x: Matrix): (dx: Matrix)
    ensures SameShape(dx, x)
    ensures forall i, j :: 0 <= i < x.rows && 0 <= j < x.cols ==>
              (dx.elems[i][j] == 1.0 <==> x.elems[i][j] > 0.0) &&
              (dx.elems[i][j] == 0.0 <==> x.elems[i][j] <= 0.0)
  {
    Map(x, ReluD)
  }

  /** An `Activation` object: its kind and the cache `z` of the last input
      `fprop` saw (absent until the first call). */
  datatype Activation = Activation(kind: ActKind, z: Option<Matrix>)

  /** `Activation.fprop`: remember the input, return f applied to it. */
  function ActForward(a: Activation, x: Matrix, math: Math): (r: (Activation, Matrix))
    ensures r.0.kind == a.kind && r.0.z == Some(x)
    ensures SameShape(r.1, x)
    ensures forall i, j :: 0 <= i < x.rows && 0 <= j < x.cols ==> r.1.elems[i][j] == Activate(a.kind, math, x.elems[i][j])
  {
    (a.(z := Some(x)), Map(x, t => Activate(a.kind, math, t)))
  }

  /** `Activation.bprop`: the upstream gradient times f' of the cached
      input.  Reading `z` before any `fprop` raises AttributeError, and
      numpy rejects a gradient whose shape differs from `z`'s. */
  function ActBackward(a: Activation, g: Matrix, math: Math): (r: Result<Matrix>)
    ensures r.Ok? <==> a.z.Some? && SameShape(g, a.z.value)
    ensures a.z.None? ==> r == Err(MissingAttribute)
    ensures r.Ok? ==> SameShape(r.value, g)
    ensures r.Ok? ==> forall i, j :: 0 <= i < g.rows && 0 <= j < g.cols ==>
              r.value.elems[i][j] == g.elems[i][j] * Derivative(a.kind, math, a.z.value.elems[i][j])
  {
    match a.z
    case None => Err(MissingAttribute)
    case Some(z) =>
      if !SameShape(g, z) then Err(ShapeMismatch)
      else Ok(Hadamard(g, Map(z, t => Derivative(a.kind, math, t))))
  }

  // ---------------------------------------------------------------------
  // softmax along the last axis
  // ---------------------------------------------------------------------

  /** np.max of a non-empty row. */
  function RowMax(v: seq<real>): (m: real)
    requires |v| > 0
    ensures forall j :: 0 <= j < |v| ==> v[j] <= m
    ensures exists j :: 0 <= j < |v| && v[j] == m
  {
    if |v| == 1 then v[0]
    else
      var m' := RowMax(v[1..]);
      assert forall j :: 1 <= j < |v| ==> v[j] == v[1..][j - 1];
      if v[0] >= m' then v[0] else m'
  }

  function DivAll(v: seq<real>, s: real): (r: seq<real>)
    requires s != 0.0
    ensures |r| == |v|
  {
    seq(|v|, j requires 0 <= j < |v| => v[j] / s)
  }

  lemma {:induction false} SumDivAll(v: seq<real>, s: real)
    requires s != 0.0
    ensures Sum(DivAll(v, s)) == Sum(v) / s
  {
    if v != [] {
      assert DivAll(v, s)[1..] == DivAll(v[1..], s);
      SumDivAll(v[1..], s);
    }
  }

  lemma {:induction false} SumPositive(v: seq<real>)
    requires |v| > 0 && forall j :: 0 <= j < |v| ==> v[j] > 0.0
    ensures Sum(v) > 0.0
  {
    if |v| > 1 {
      SumPositive(v[1..]);
    }
  }

  /** Dividing positive entries by their (positive) sum gives positive
      entries that sum to one. */
  lemma Normalised(e: seq<real>)
    requires |e| > 0 && forall j :: 0 <= j < |e| ==> e[j] > 0.0
    ensures Sum(e) > 0.0
    ensures Sum(DivAll(e, Sum(e))) == 1.0
    ensures forall j :: 0 <= j < |e| ==> DivAll(e, Sum(e))[j] > 0.0
  {
    SumPositive(e);
    var total := Sum(e);
    SumDivAll(e, total);
    assert total / total == 1.0;
    forall j | 0 <= j < |e| ensures e[j] / total > 0.0 {
      assert e[j] > 0.0 && total > 0.0;
    }
  }

  /** One row of `softmax`: shift by the row maximum, exponentiate,
      normalise by the row sum.  Every entry is positive and the row sums
      to one whatever `exp` is, as long as it is positive. */
  function SoftmaxRow(v: seq<real>, math: Math): (r: seq<real>)
    requires |v| > 0
    ensures |r| == |v|
    ensures forall j :: 0 <= j < |r| ==> r[j] > 0.0
    ensures Sum(r) == 1.0
  {
    var top := RowMax(v);
    var e := seq(|v|, j requires 0 <= j < |v| => math.exp(v[j] - top));
    SumPositive(e);
    Normalised(e);
    DivAll(e, Sum(e))
  }

  /** `softmax(x, axis=1)`.  numpy's max raises ValueError on a row of
      length zero. */
  function Softmax(x: Matrix, math: Math): (r: Result<Matrix>)
    ensures r.Ok? <==> x.cols > 0
    ensures r.Err? ==> r.error == EmptyReduction
    ensures r.Ok? ==> SameShape(r.value, x)
    ensures r.Ok? ==> forall i :: 0 <= i < x.rows ==> Sum(r.value.elems[i]) == 1.0
    ensures r.Ok? ==> forall i, j :: 0 <= i < x.rows && 0 <= j < x.cols ==> r.value.elems[i][j] > 0.0
  {
    if x.cols == 0 then Err(EmptyReduction)
    else Ok(Mat(x.rows, x.cols, seq(x.rows, i requires 0 <= i < x.rows => SoftmaxRow(x.elems[i], math))))
  }
}
