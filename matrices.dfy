/** Two-dimensional arrays with an explicit shape, as numpy keeps them, and
    the handful of array operations the network uses.  Arithmetic is exact
    over `real`; the source computes in float64. */
module Matrices {

  type Vector = seq<real>

  /** A `rows` x `cols` array stored as a sequence of rows.  The shape is
      kept separately so that an array with no rows still has a width. */
  datatype Mat = Mat(rows: nat, cols: nat, elems: seq<seq<real>>)

  predicate WellShaped(m: Mat) {
    |m.elems| == m.rows && forall i :: 0 <= i < m.rows ==> |m.elems[i]| == m.cols
  }

  type Matrix = m: Mat | WellShaped(m) witness Mat(0, 0, [])

  predicate SameShape(a: Matrix, b: Matrix) {
    a.rows == b.rows && a.cols == b.cols
  }

  // ---------------------------------------------------------------------
  // Row-major flattening (np.ravel) and its inverse (np.reshape)
  // ---------------------------------------------------------------------

  /** Concatenation of a sequence of rows. */
  function Concat(rows: seq<seq<real>>): seq<real> {
    if rows == [] then [] else rows[0] + Concat(rows[1..])
  }

  lemma {:induction false} ConcatLength(rows: seq<seq<real>>, c: nat)
    requires forall i :: 0 <= i < |rows| ==> |rows[i]| == c
    ensures |Concat(rows)| == |rows| * c
  {
    if rows != [] {
      ConcatLength(rows[1..], c);
      assert |rows| * c == c + (|rows| - 1) * c;
    }
  }

  /** np.ravel: the elements of `m`, row after row. */
  function Ravel(m: Matrix): (v: Vector)
    ensures |v| == m.rows * m.cols
  {
    ConcatLength(m.elems, m.cols);
    Concat(m.elems)
  }

  /** Row-major layout: element (i, j) sits at position i * cols + j. */
  lemma {:induction false} ConcatAt(rows: seq<seq<real>>, c: nat, i: nat, j: nat)
    requires forall k :: 0 <= k < |rows| ==> |rows[k]| == c
    requires i < |rows| && j < c
    ensures i * c + j < |Concat(rows)| && Concat(rows)[i * c + j] == rows[i][j]
  {
    ConcatLength(rows, c);
    if i > 0 {
      ConcatAt(rows[1..], c, i - 1, j);
      assert i * c + j == c + ((i - 1) * c + j);
    }
  }

  lemma RavelAt(m: Matrix, i: nat, j: nat)
    requires i < m.rows && j < m.cols
    ensures i * m.cols + j < |Ravel(m)| && Ravel(m)[i * m.cols + j] == m.elems[i][j]
  {
    ConcatAt(m.elems, m.cols, i, j);
  }

  /** The rows of an `r` x `c` array read from `v` in row-major order. */
  function Chunks(v: seq<real>, r: nat, c: nat): (rows: seq<seq<real>>)
    requires |v| == r * c
    ensures |rows| == r && forall i :: 0 <= i < r ==> |rows[i]| == c
    decreases r
  {
    if r == 0 then []
    else
      assert r * c == c + (r - 1) * c;
      [v[..c]] + Chunks(v[c..], r - 1, c)
  }

  /** np.reshape(v, (r, c)); the source raises when the sizes differ, and
      the callers in this model check `|v| == r * c` first. */
  function Reshape(v: Vector, r: nat, c: nat): (m: Matrix)
    requires |v| == r * c
    ensures m.rows == r && m.cols == c
  {
    Mat(r, c, Chunks(v, r, c))
  }

  lemma {:induction false} ConcatChunks(v: seq<real>, r: nat, c: nat)
    requires |v| == r * c
    ensures Concat(Chunks(v, r, c)) == v
  {
    if r > 0 {
      assert r * c == c + (r - 1) * c;
      ConcatChunks(v[c..], r - 1, c);
      assert v == v[..c] + v[c..];
    }
  }

  lemma {:induction false} ChunksConcat(rows: seq<seq<real>>, c: nat)
    requires forall i :: 0 <= i < |rows| ==> |rows[i]| == c
    ensures |Concat(rows)| == |rows| * c
    ensures Chunks(Concat(rows), |rows|, c) == rows
  {
    ConcatLength(rows, c);
    if rows != [] {
      ChunksConcat(rows[1..], c);
      var v := Concat(rows);
      assert v == rows[0] + Concat(rows[1..]);
      assert v[..c] == rows[0];
      assert v[c..] == Concat(rows[1..]);
    }
  }

  /** Reshaping a raveled array to its own shape gives it back. */
  lemma ReshapeRavel(m: Matrix)
    ensures Reshape(Ravel(m), m.rows, m.cols) == m
  {
    ChunksConcat(m.elems, m.cols);
  }

  /** Raveling a reshaped vector gives the vector back. */
  lemma RavelReshape(v: Vector, r: nat, c: nat)
    requires |v| == r * c
    ensures Ravel(Reshape(v, r, c)) == v
  {
    ConcatChunks(v, r, c);
  }

  // ---------------------------------------------------------------------
  // Element-wise and linear-algebra operations
  // ---------------------------------------------------------------------

  function Sum(v: seq<real>): real {
    if v == [] then 0.0 else v[0] + Sum(v[1..])
  }

  function Dot(u: seq<real>, v: seq<real>): real
    requires |u| == |v|
  {
    if u == [] then 0.0 else u[0] * v[0] + Dot(u[1..], v[1..])
  }

  function Column(m: Matrix, j: nat): (c: Vector)
    requires j < m.cols
    ensures |c| == m.rows
  {
    seq(m.rows, i requires 0 <= i < m.rows => m.elems[i][j])
  }

  /** np.dot of two 2-D arrays. */
  function MatMul(a: Matrix, b: Matrix): (p: Matrix)
    requires a.cols == b.rows
    ensures p.rows == a.rows && p.cols == b.cols
  {
    Mat(a.rows, b.cols,
        seq(a.rows, i requires 0 <= i < a.rows =>
          seq(b.cols, j requires 0 <= j < b.cols => Dot(a.elems[i], Column(b, j)))))
  }

  /** The `.T` attribute. */
  function Transpose(m: Matrix): (t: Matrix)
    ensures t.rows == m.cols && t.cols == m.rows
  {
    Mat(m.cols, m.rows,
        seq(m.cols, j requires 0 <= j < m.cols =>
          seq(m.rows, i requires 0 <= i < m.rows => m.elems[i][j])))
  }

  /** `m + b` with a bias row broadcast over every row of `m`. */
  function AddRow(m: Matrix, b: Vector): (r: Matrix)
    requires |b| == m.cols
    ensures SameShape(r, m)
  {
    Mat(m.rows, m.cols,
        seq(m.rows, i requires 0 <= i < m.rows =>
          seq(m.cols, j requires 0 <= j < m.cols => m.elems[i][j] + b[j])))
  }

  /** A scalar function applied to every element. */
  function Map(m: Matrix, f: real -> real): (r: Matrix)
    ensures SameShape(r, m)
    ensures forall i, j :: 0 <= i < m.rows && 0 <= j < m.cols ==> r.elems[i][j] == f(m.elems[i][j])
  {
    Mat(m.rows, m.cols,
        seq(m.rows, i requires 0 <= i < m.rows =>
          seq(m.cols, j requires 0 <= j < m.cols => f(m.elems[i][j]))))
  }

  /** Element-wise product of two arrays of one shape. */
  function Hadamard(a: Matrix, b: Matrix): (r: Matrix)
    requires SameShape(a, b)
    ensures SameShape(r, a)
    ensures forall i, j :: 0 <= i < a.rows && 0 <= j < a.cols ==> r.elems[i][j] == a.elems[i][j] * b.elems[i][j]
  {
    Mat(a.rows, a.cols,
        seq(a.rows, i requires 0 <= i < a.rows =>
          seq(a.cols, j requires 0 <= j < a.cols => a.elems[i][j] * b.elems[i][j])))
  }

  /** `a - s * b` element-wise (both `Y_pred - Y` and `param -= lr * grad`). */
  function SubScaled(a: Matrix, s: real, b: Matrix): (r: Matrix)
    requires SameShape(a, b)
    ensures SameShape(r, a)
    ensures forall i, j :: 0 <= i < a.rows && 0 <= j < a.cols ==>
              r.elems[i][j] == a.elems[i][j] - s * b.elems[i][j]
  {
    Mat(a.rows, a.cols, SubScaledRows(a.elems, s, b.elems, a.cols))
  }

  function SubScaledRows(a: seq<seq<real>>, s: real, b: seq<seq<real>>, c: nat): (rows: seq<seq<real>>)
    requires |a| == |b|
    requires forall i :: 0 <= i < |a| ==> |a[i]| == c && |b[i]| == c
    ensures |rows| == |a| && forall i :: 0 <= i < |a| ==> |rows[i]| == c
  {
    seq(|a|, i requires 0 <= i < |a| => VecSubScaled(a[i], s, b[i]))
  }

  /** Every element divided by a non-zero scalar. */
  function DivBy(m: Matrix, d: real): (r: Matrix)
    requires d != 0.0
    ensures SameShape(r, m)
  {
    Mat(m.rows, m.cols,
        seq(m.rows, i requires 0 <= i < m.rows =>
          seq(m.cols, j requires 0 <= j < m.cols => m.elems[i][j] / d)))
  }

  /** np.mean(m, axis=0) for an array with at least one row. */
  function ColumnMean(m: Matrix): (r: Vector)
    requires m.rows > 0
    ensures |r| == m.cols
  {
    seq(m.cols, j requires 0 <= j < m.cols => Sum(Column(m, j)) / (m.rows as real))
  }

  /** `v - s * w` element-wise on flat vectors. */
  function VecSubScaled(v: Vector, s: real, w: Vector): (r: Vector)
    requires |v| == |w|
    ensures |r| == |v|
    ensures forall i :: 0 <= i < |v| ==> r[i] == v[i] - s * w[i]
  {
    seq(|v|, i requires 0 <= i < |v| => v[i] - s * w[i])
  }

  lemma VecSubScaledAppend(x: Vector, y: Vector, s: real, x': Vector, y': Vector)
    requires |x| == |x'| && |y| == |y'|
    ensures VecSubScaled(x + y, s, x' + y') == VecSubScaled(x, s, x') + VecSubScaled(y, s, y')
  {
    var lhs := VecSubScaled(x + y, s, x' + y');
    var rhs := VecSubScaled(x, s, x') + VecSubScaled(y, s, y');
    forall k | 0 <= k < |lhs| ensures lhs[k] == rhs[k] {
      if k >= |x| {
        assert lhs[k] == y[k - |x|] - s * y'[k - |x|];
      }
    }
  }

  lemma {:induction false} ConcatSubScaled(a: seq<seq<real>>, s: real, b: seq<seq<real>>, c: nat)
    requires |a| == |b|
    requires forall i :: 0 <= i < |a| ==> |a[i]| == c && |b[i]| == c
    ensures |Concat(a)| == |Concat(b)|
    ensures Concat(SubScaledRows(a, s, b, c)) == VecSubScaled(Concat(a), s, Concat(b))
  {
    ConcatLength(a, c);
    ConcatLength(b, c);
    if a != [] {
      ConcatSubScaled(a[1..], s, b[1..], c);
      var rows := SubScaledRows(a, s, b, c);
      assert rows[1..] == SubScaledRows(a[1..], s, b[1..], c);
      ConcatLength(a[1..], c);
      ConcatLength(b[1..], c);
      VecSubScaledAppend(a[0], Concat(a[1..]), s, b[0], Concat(b[1..]));
    }
  }

  /** Raveling commutes with the element-wise update `a - s * b`: updating
      each tensor in place is the same as updating its flat image. */
  lemma RavelSubScaled(a: Matrix, s: real, b: Matrix)
    requires SameShape(a, b)
    ensures Ravel(SubScaled(a, s, b)) == VecSubScaled(Ravel(a), s, Ravel(b))
  {
    ConcatSubScaled(a.elems, s, b.elems, a.cols);
  }

  /** `m[lo:hi]` on the first axis.  Python clamps the bounds to the array,
      so a slice past the end is short or empty rather than an error. */
  function RowSlice(m: Matrix, lo: nat, hi: nat): (r: Matrix)
    ensures r.cols == m.cols
    ensures r.rows == (if lo >= m.rows || hi <= lo then 0 else (if hi < m.rows then hi else m.rows) - lo)
    ensures forall i :: 0 <= i < r.rows ==> r.elems[i] == m.elems[lo + i]
  {
    if lo >= m.rows || hi <= lo then Mat(0, m.cols, [])
    else
      var top := if hi < m.rows then hi else m.rows;
      Mat(top - lo, m.cols, m.elems[lo..top])
  }
}
