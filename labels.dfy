/** Label bookkeeping: `one_hot`, `unhot` and the mismatch fraction that
    `classification_error` reports (Ex01/NeuralNetwork.py). */
module Labels {
  import opened Outcomes
  import opened Matrices

  /** The distinct labels (np.unique, as a set). */
  function Classes(labels: seq<nat>): set<nat> {
    set l | l in labels
  }

  function NumClasses(labels: seq<nat>): nat {
    |Classes(labels)|
  }

  /** The indicator matrix: one row per label, `k` columns, a 1.0 in the
      label's column and 0.0 everywhere else. */
  function OneHotOf(labels: seq<nat>, k: nat): (m: Matrix)
    ensures m.rows == |labels| && m.cols == k
  {
    Mat(|labels|, k,
        seq(|labels|, i requires 0 <= i < |labels| =>
          seq(k, j requires 0 <= j < k => if labels[i] == j then 1.0 else 0.0)))
  }

  predicate LabelsBelow(labels: seq<nat>, k: nat) {
    forall i :: 0 <= i < |labels| ==> labels[i] < k
  }

  /** `one_hot`: a zero array of shape (n, number of distinct labels), then
      for each distinct label c, a 1 written into column c of the rows
      holding c.  A label at or beyond the number of distinct labels indexes
      past the last column and raises IndexError.  The source visits the
      classes in ascending order; the writes touch disjoint cells and the
      failure does not depend on the order, so this loop takes them in any
      order. */
  method OneHot(labels: seq<nat>) returns (r: Result<Matrix>)
    ensures r.Ok? <==> LabelsBelow(labels, NumClasses(labels))
    ensures r.Ok? ==> r.value == OneHotOf(labels, NumClasses(labels))
    ensures r.Err? ==> r.error == IndexOutOfRange
  {
    var classes := Classes(labels);
    var k := |classes|;
    var n := |labels|;
    var m: seq<seq<real>> := seq(n, i => seq(k, j => 0.0));
    var remaining := classes;
    while remaining != {}
      invariant remaining <= classes
      invariant forall i :: 0 <= i < n ==> labels[i] in classes
      invariant forall l :: l in classes && l !in remaining ==> l < k
      invariant |m| == n && forall i :: 0 <= i < n ==> |m[i]| == k
      invariant forall i, j {:trigger m[i][j]} :: 0 <= i < n && 0 <= j < k ==>
                  m[i][j] == if labels[i] == j && j !in remaining then 1.0 else 0.0
      decreases remaining
    {
      var c :| c in remaining;
      if c >= k {
        assert c in labels;
        return Err(IndexOutOfRange);
      }
      var i := 0;
      while i < n
        invariant 0 <= i <= n
        invariant forall i' :: 0 <= i' < n ==> labels[i'] in classes
        invariant |m| == n && forall i' :: 0 <= i' < n ==> |m[i']| == k
        invariant forall i', j {:trigger m[i'][j]} :: 0 <= i' < n && 0 <= j < k ==>
                    m[i'][j] == if labels[i'] == j && (j !in remaining || (j == c && i' < i)) then 1.0 else 0.0
      {
        if labels[i] == c {
          m := m[i := m[i][c := 1.0]];
        }
        i := i + 1;
      }
      remaining := remaining - {c};
    }
    assert LabelsBelow(labels, k) by {
      forall i | 0 <= i < n ensures labels[i] < k {
        assert labels[i] in classes;
      }
    }
    var expected := OneHotOf(labels, k);
    forall i | 0 <= i < n ensures m[i] == expected.elems[i] {
      assert forall j :: 0 <= j < k ==> m[i][j] == expected.elems[i][j];
    }
    r := Ok(Mat(n, k, m));
  }

  /** The label values 0, 1, ..., k-1. */
  function Range(k: nat): (s: set<nat>)
    ensures forall c: nat :: c in s <==> c < k
    ensures |s| == k
  {
    if k == 0 then {} else Range(k - 1) + {k - 1}
  }

  /** The labels fit below the number of distinct labels exactly when the
      distinct labels are 0, 1, ..., k-1: the case in which `one_hot`
      succeeds. */
  lemma OneHotDefinedIffContiguous(labels: seq<nat>)
    ensures LabelsBelow(labels, NumClasses(labels)) <==> Classes(labels) == Range(NumClasses(labels))
  {
    var k := NumClasses(labels);
    var range := Range(k);
    if LabelsBelow(labels, k) {
      assert Classes(labels) <= range by {
        forall l | l in Classes(labels) ensures l in range {
          var i :| 0 <= i < |labels| && labels[i] == l;
        }
      }
      if Classes(labels) != range {
        assert Classes(labels) < range;
        ProperSubsetSmaller(Classes(labels), range);
      }
    }
    if Classes(labels) == range {
      forall i | 0 <= i < |labels| ensures labels[i] < k {
        assert labels[i] in Classes(labels);
      }
    }
  }

  lemma ProperSubsetSmaller(a: set<nat>, b: set<nat>)
    requires a < b
    ensures |a| < |b|
  {
    assert b - a != {} by {
      assert b == a + (b - a);
    }
    var x :| x in b - a;
    SubsetNoLarger(a, b - {x});
  }

  lemma {:induction false} SubsetNoLarger(a: set<nat>, b: set<nat>)
    requires a <= b
    ensures |a| <= |b|
    decreases |a|
  {
    if a != {} {
      var y :| y in a;
      SubsetNoLarger(a - {y}, b - {y});
    }
  }

  /** np.argmax of a non-empty row: the first position of its largest
      element. */
  function Argmax(v: seq<real>): (k: nat)
    requires |v| > 0
    ensures k < |v|
    ensures forall j :: 0 <= j < |v| ==> v[j] <= v[k]
    ensures forall j :: 0 <= j < k ==> v[j] < v[k]
    decreases |v|
  {
    if |v| == 1 then 0
    else
      var k' := Argmax(v[..|v| - 1]);
      if v[|v| - 1] > v[k'] then |v| - 1 else k'
  }

  /** `unhot`: argmax along the last axis.  numpy raises ValueError when
      that axis is empty. */
  function Unhot(m: Matrix): (r: Result<seq<nat>>)
    ensures r.Ok? <==> m.cols > 0
    ensures r.Err? ==> r.error == EmptyReduction
    ensures r.Ok? ==> |r.value| == m.rows
    ensures r.Ok? ==> forall i :: 0 <= i < m.rows ==> r.value[i] < m.cols
    ensures r.Ok? ==> forall i :: 0 <= i < m.rows ==> r.value[i] == Argmax(m.elems[i])
  {
    if m.cols == 0 then Err(EmptyReduction)
    else Ok(seq(m.rows, i requires 0 <= i < m.rows => Argmax(m.elems[i])))
  }

  /** `unhot` inverts `one_hot`: whenever every label is below the number
      of columns (and there is at least one column), argmax of each
      indicator row recovers its label. */
  lemma UnhotOneHot(labels: seq<nat>, k: nat)
    requires k > 0 && LabelsBelow(labels, k)
    ensures Unhot(OneHotOf(labels, k)) == Ok(labels)
  {
    var m := OneHotOf(labels, k);
    var r := Unhot(m);
    forall i | 0 <= i < |labels| ensures r.value[i] == labels[i] {
      var row := m.elems[i];
      var a := Argmax(row);
      assert row[labels[i]] == 1.0;
      assert row[a] >= 1.0;
      assert r.value[i] == a;
    }
    assert r.value == labels;
  }

  /** The same round trip for the labels `one_hot` itself accepts. */
  lemma UnhotOfOneHot(labels: seq<nat>)
    requires |labels| > 0 && LabelsBelow(labels, NumClasses(labels))
    ensures Unhot(OneHotOf(labels, NumClasses(labels))) == Ok(labels)
  {
    assert labels[0] in Classes(labels);
    UnhotOneHot(labels, NumClasses(labels));
  }

  /** The example from the `one_hot` doc comment: [0, 2, 1] with three
      classes. */
  lemma DocExample()
    ensures NumClasses([0, 2, 1]) == 3
    ensures OneHotOf([0, 2, 1], 3).elems == [[1.0, 0.0, 0.0], [0.0, 0.0, 1.0], [0.0, 1.0, 0.0]]
    ensures Unhot(OneHotOf([0, 2, 1], 3)) == Ok([0, 2, 1])
  {
    assert Classes([0, 2, 1]) == {0, 1, 2};
    var m := OneHotOf([0, 2, 1], 3);
    assert m.elems[0] == [1.0, 0.0, 0.0];
    assert m.elems[1] == [0.0, 0.0, 1.0];
    assert m.elems[2] == [0.0, 1.0, 0.0];
    UnhotOneHot([0, 2, 1], 3);
  }

  /** The positions where two equally long label sequences differ. */
  function MismatchSet(pred: seq<nat>, labels: seq<nat>): set<nat>
    requires |pred| == |labels|
  {
    set i: nat | i < |pred| && pred[i] != labels[i]
  }

  /** Number of positions where two equally long label sequences differ,
      counted from the back. */
  function Mismatches(pred: seq<nat>, labels: seq<nat>): (r: nat)
    requires |pred| == |labels|
    ensures r == |MismatchSet(pred, labels)|
    decreases |pred|
  {
    if pred == [] then
      assert MismatchSet(pred, labels) == {};
      0
    else
      var n := |pred| - 1;
      MismatchSetSnoc(pred, labels);
      Mismatches(pred[..n], labels[..n]) + (if pred[n] != labels[n] then 1 else 0)
  }

  /** The last position joins the mismatches of the front exactly when it
      differs. */
  lemma MismatchSetSnoc(pred: seq<nat>, labels: seq<nat>)
    requires |pred| == |labels| > 0
    ensures var n := |pred| - 1;
            var front := MismatchSet(pred[..n], labels[..n]);
            n !in front &&
            MismatchSet(pred, labels) == front + (if pred[n] != labels[n] then {n} else {})
  {
  }

  lemma MismatchesBounds(pred: seq<nat>, labels: seq<nat>)
    requires |pred| == |labels|
    ensures Mismatches(pred, labels) <= |pred|
    ensures Mismatches(pred, labels) == 0 <==> pred == labels
  {
    var s := MismatchSet(pred, labels);
    SubsetNoLarger(s, Range(|pred|));
    if pred != labels {
      var i :| 0 <= i < |pred| && pred[i] != labels[i];
      assert i in s;
    }
  }

  /** np.mean(Y_pred != Y): the fraction of mismatching positions.  Arrays
      of different lengths cannot be compared element-wise, and the mean of
      nothing is NaN. */
  function ErrorRate(pred: seq<nat>, labels: seq<nat>): (r: Result<real>)
    ensures |pred| != |labels| ==> r == Err(ShapeMismatch)
    ensures |pred| == |labels| == 0 ==> r == Err(NotANumber)
    ensures r.Ok? <==> |pred| == |labels| > 0
    ensures r.Ok? ==> 0.0 <= r.value <= 1.0
    ensures r.Ok? ==> (r.value == 0.0 <==> pred == labels)
    ensures r.Ok? ==> r.value == |MismatchSet(pred, labels)| as real / |pred| as real
  {
    if |pred| != |labels| then Err(ShapeMismatch)
    else if |pred| == 0 then Err(NotANumber)
    else
      MismatchesBounds(pred, labels);
      FractionBounds(Mismatches(pred, labels), |pred|);
      Ok(Mismatches(pred, labels) as real / |pred| as real)
  }

  /** A count out of a positive total is a fraction between 0 and 1 that is
      0 only for a count of 0. */
  lemma FractionBounds(count: nat, total: nat)
    requires 0 < total && count <= total
    ensures 0.0 <= count as real / total as real <= 1.0
    ensures count as real / total as real == 0.0 <==> count == 0
  {
    var q := count as real / total as real;
    assert q * total as real == count as real;
  }

  /** `classification_error` after the prediction: `unhot` of the network
      output compared with the true labels. */
  function ClassificationError(yPred: Matrix, labels: seq<nat>): (r: Result<real>)
    ensures r.Ok? <==> yPred.cols > 0 && yPred.rows == |labels| > 0
    ensures r.Ok? ==> 0.0 <= r.value <= 1.0
    ensures r.Ok? ==> (r.value == 0.0 <==> Unhot(yPred) == Ok(labels))
    ensures r.Ok? ==> r.value == |MismatchSet(Unhot(yPred).value, labels)| as real / |labels| as real
  {
    var predicted := Unhot(yPred);
    if predicted.Err? then Err(predicted.error)
    else ErrorRate(predicted.value, labels)
  }

  /** One wrong prediction out of two is an error rate of one half. */
  lemma ErrorRateExample()
    ensures ErrorRate([0, 1], [0, 0]) == Ok(0.5)
  {
    assert MismatchSet([0, 1], [0, 0]) == {1};
  }

  /** `unhot` of an output that is not one-hot, such as a softmax row,
      names the column of its largest entry. */
  lemma UnhotExample()
    ensures Unhot(Mat(1, 3, [[0.2, 0.7, 0.1]])) == Ok([1])
  {
    var m := Mat(1, 3, [[0.2, 0.7, 0.1]]);
    var k := Argmax(m.elems[0]);
    // the contract of Argmax leaves only the first largest column
    assert m.elems[0][1] <= m.elems[0][k];
    assert k != 2 by { assert m.elems[0][0] > m.elems[0][2]; }
    assert k == 1;
    assert Unhot(m).value == [1];
  }
}
