/** What one epoch of each descent method of `NeuralNetwork` does to the
    layers (Ex01/NeuralNetwork.py: `gd_epoch`, `sgd_epoch`, `gdm_epoch`,
    `rprop`), stated over the layer list, with the flat-vector meaning of
    each update proved. */
module Training {
  import opened Outcomes
  import opened Matrices
  import opened Activations
  import opened Layers
  import opened ParamLayout
  import opened Pipeline
  import opened UpdateRules
  import opened Labels

  /** `predict` followed by `backpropagate`, the start of every epoch. */
  function ForwardBackwardPass(ls: seq<Layer>, x: Matrix, y: Matrix, math: Math): (r: (seq<Layer>, Result<Matrix>))
    requires AllConsistent(ls)
    ensures AllConsistent(r.0) && AllSameWeights(ls, r.0)
    ensures ParamVector(r.0) == ParamVector(ls)
    ensures r.1.Ok? ==> AllHaveGrads(r.0) && GradVector(r.0).Ok?
    ensures r.1.Ok? ==> |GradVector(r.0).value| == |ParamVector(ls)|
  {
    var forward := Forward(ls, x, math);
    SameWeightsParams(ls, forward.0);
    if forward.1.Err? then forward
    else
      var backward := Backpropagate(forward.0, y, forward.1.value, math);
      SameWeightsParams(forward.0, backward.0);
      SameWeightsTransitive(ls, forward.0, backward.0);
      backward
  }

  /** On a well-formed network, with at least one sample and targets shaped
      like the prediction, the pass raises nothing. */
  lemma PassSucceeds(ls: seq<Layer>, x: Matrix, y: Matrix, math: Math)
    requires WellFormed(ls, x.cols) && x.rows > 0
    requires y.rows == x.rows && y.cols == FinalWidth(ls, x.cols)
    ensures ForwardBackwardPass(ls, x, y, math).1.Ok?
  {
    ForwardBackward(ls, x, y, math);
  }

  // ---------------------------------------------------------------------
  // gd_epoch
  // ---------------------------------------------------------------------

  /** `gd_epoch`: one pass, then `param -= learning_rate*grad` for every
      parameter tensor.  Updating each tensor in place moves the flat
      parameter vector by exactly `-learning_rate` times the flat gradient
      vector; a pass that raises changes no parameter. */
  function GdEpoch(ls: seq<Layer>, x: Matrix, y: Matrix, rate: real, math: Math): (r: (seq<Layer>, Outcome))
    requires AllConsistent(ls)
    ensures AllConsistent(r.0) && |r.0| == |ls|
    ensures r.1 == Pass <==> ForwardBackwardPass(ls, x, y, math).1.Ok?
    ensures r.1 == Pass ==>
              ParamVector(r.0) == VecSubScaled(ParamVector(ls), rate, GradVector(ForwardBackwardPass(ls, x, y, math).0).value)
    ensures r.1.Fail? ==> ParamVector(r.0) == ParamVector(ls)
  {
    var pass := ForwardBackwardPass(ls, x, y, math);
    if pass.1.Err? then (pass.0, Fail(pass.1.error))
    else
      DescendFlat(pass.0, rate);
      (Descend(pass.0, rate), Pass)
  }

  // ---------------------------------------------------------------------
  // sgd_epoch
  // ---------------------------------------------------------------------

  /** The batches `from`, `from + 1`, ..., `count - 1` of `sgd_epoch`, each
      a gradient-descent epoch on its rows; the first batch that raises
      ends the epoch. */
  function SgdBatches(ls: seq<Layer>, x: Matrix, y: Matrix, rate: real, batchSize: nat,
                      from: nat, count: nat, math: Math): (r: (seq<Layer>, Outcome))
    requires AllConsistent(ls)
    ensures AllConsistent(r.0) && |r.0| == |ls|
    decreases count - from
  {
    if from >= count then (ls, Pass)
    else
      var lo := BatchBegin(from, batchSize);
      var hi := BatchEnd(from, batchSize);
      var batch := GdEpoch(ls, RowSlice(x, lo, hi), RowSlice(y, lo, hi), rate, math);
      if batch.1.Fail? then batch
      else SgdBatches(batch.0, x, y, rate, batchSize, from + 1, count, math)
  }

  /** `sgd_epoch`: `n_samples // batch_size` batches of consecutive rows. */
  function SgdEpoch(ls: seq<Layer>, x: Matrix, y: Matrix, rate: real, batchSize: int, math: Math): (r: (seq<Layer>, Outcome))
    requires AllConsistent(ls)
    ensures AllConsistent(r.0) && |r.0| == |ls|
    ensures batchSize == 0 ==> r == (ls, Fail(ZeroDivision))
    ensures batchSize < 0 ==> r == (ls, Pass)
  {
    var count := NumBatches(x.rows, batchSize);
    if count.Err? then (ls, Fail(count.error))
    else if batchSize < 0 then (ls, Pass)
    else SgdBatches(ls, x, y, rate, batchSize, 0, count.value, math)
  }

  /** Every batch keeps the number of parameters. */
  lemma {:induction false} SgdBatchesKeepCount(ls: seq<Layer>, x: Matrix, y: Matrix, rate: real, batchSize: nat,
                                               from: nat, count: nat, math: Math)
    requires AllConsistent(ls)
    ensures |ParamVector(SgdBatches(ls, x, y, rate, batchSize, from, count, math).0)| == |ParamVector(ls)|
    decreases count - from
  {
    if from < count {
      var lo := BatchBegin(from, batchSize);
      var hi := BatchEnd(from, batchSize);
      var batch := GdEpoch(ls, RowSlice(x, lo, hi), RowSlice(y, lo, hi), rate, math);
      if batch.1.Pass? {
        SgdBatchesKeepCount(batch.0, x, y, rate, batchSize, from + 1, count, math);
      }
    }
  }

  lemma SgdEpochKeepsCount(ls: seq<Layer>, x: Matrix, y: Matrix, rate: real, batchSize: int, math: Math)
    requires AllConsistent(ls)
    ensures |ParamVector(SgdEpoch(ls, x, y, rate, batchSize, math).0)| == |ParamVector(ls)|
  {
    if batchSize > 0 {
      SgdBatchesKeepCount(ls, x, y, rate, batchSize, 0, NumBatches(x.rows, batchSize).value, math);
    }
  }

  /** The trailing remainder plays no part: an epoch over all the rows
      does what an epoch over the first `n_batches * batch_size` rows
      does. */
  lemma SgdIgnoresRemainder(ls: seq<Layer>, x: Matrix, y: Matrix, rate: real, batchSize: nat, math: Math)
    requires AllConsistent(ls) && batchSize > 0
    ensures var used := NumBatches(x.rows, batchSize).value * batchSize;
            SgdEpoch(ls, x, y, rate, batchSize, math) ==
              SgdEpoch(ls, RowSlice(x, 0, used), RowSlice(y, 0, used), rate, batchSize, math)
  {
    var count := NumBatches(x.rows, batchSize).value;
    var used := count * batchSize;
    var x', y' := RowSlice(x, 0, used), RowSlice(y, 0, used);
    WholeBatches(x.rows, batchSize);
    assert NumBatches(x'.rows, batchSize) == Ok(count);
    SgdBatchesIgnoreRemainder(ls, x, y, rate, batchSize, 0, count, math);
    SgdEpochIsBatches(ls, x, y, rate, batchSize, count, math);
    SgdEpochIsBatches(ls, x', y', rate, batchSize, count, math);
  }

  lemma SgdEpochIsBatches(ls: seq<Layer>, x: Matrix, y: Matrix, rate: real, batchSize: nat, count: nat, math: Math)
    requires AllConsistent(ls) && batchSize > 0 && NumBatches(x.rows, batchSize) == Ok(count)
    ensures SgdEpoch(ls, x, y, rate, batchSize, math) == SgdBatches(ls, x, y, rate, batchSize, 0, count, math)
  {
  }

  /** The rows the batches cover make up exactly as many batches. */
  lemma WholeBatches(samples: nat, batchSize: nat)
    requires batchSize > 0
    ensures var count := NumBatches(samples, batchSize).value;
            NumBatches(count * batchSize, batchSize) == Ok(count)
  {
    var count := NumBatches(samples, batchSize).value;
    DivisionIsUnique(count * batchSize, batchSize, count);
  }

  lemma DivisionIsUnique(n: nat, d: nat, q: nat)
    requires d > 0 && q * d <= n < (q + 1) * d
    ensures n / d == q
  {
    var q' := NumBatches(n, d).value;
    if q < q' {
      MultiplyMonotone(q + 1, q', d);
    } else if q' < q {
      MultiplyMonotone(q' + 1, q, d);
    }
  }

  lemma {:induction false} SgdBatchesIgnoreRemainder(ls: seq<Layer>, x: Matrix, y: Matrix, rate: real,
                                                     batchSize: nat, from: nat, count: nat, math: Math)
    requires AllConsistent(ls) && batchSize > 0 && count * batchSize <= x.rows
    ensures var used := count * batchSize;
            SgdBatches(ls, x, y, rate, batchSize, from, count, math) ==
              SgdBatches(ls, RowSlice(x, 0, used), RowSlice(y, 0, used), rate, batchSize, from, count, math)
    decreases count - from
  {
    var used := count * batchSize;
    var x', y' := RowSlice(x, 0, used), RowSlice(y, 0, used);
    if from < count {
      var lo := BatchBegin(from, batchSize);
      var hi := BatchEnd(from, batchSize);
      assert hi <= used by {
        MultiplyMonotone(from + 1, count, batchSize);
      }
      assert RowSlice(x', lo, hi) == RowSlice(x, lo, hi);
      assert RowSlice(y', lo, hi) == RowSlice(y, lo, hi) by {
        RowSliceNested(y, used, lo, hi);
      }
      var batch := GdEpoch(ls, RowSlice(x, lo, hi), RowSlice(y, lo, hi), rate, math);
      if batch.1.Pass? {
        SgdBatchesIgnoreRemainder(batch.0, x, y, rate, batchSize, from + 1, count, math);
      }
    }
  }

  /** Slicing the first `used` rows and then `[lo, hi)` within them is
      slicing `[lo, hi)` directly when `hi <= used`. */
  lemma RowSliceNested(m: Matrix, used: nat, lo: nat, hi: nat)
    requires lo <= hi <= used
    ensures RowSlice(RowSlice(m, 0, used), lo, hi) == RowSlice(m, lo, hi)
  {
  }

  /** The first `b` batches of `sgd_epoch`, counted from the front: batch
      `b - 1` is a gradient-descent epoch on its rows, run on what the
      batches before it left, unless one of those raised. */
  function SgdRun(ls: seq<Layer>, x: Matrix, y: Matrix, rate: real, batchSize: nat, b: nat, math: Math)
    : (r: (seq<Layer>, Outcome))
    requires AllConsistent(ls)
    ensures AllConsistent(r.0) && |r.0| == |ls|
    decreases b
  {
    if b == 0 then (ls, Pass)
    else
      var before := SgdRun(ls, x, y, rate, batchSize, b - 1, math);
      if before.1.Fail? then before
      else
        var lo, hi := BatchBegin(b - 1, batchSize), BatchEnd(b - 1, batchSize);
        GdEpoch(before.0, RowSlice(x, lo, hi), RowSlice(y, lo, hi), rate, math)
  }

  /** Batch `b` of a run that has not raised yet is one gradient-descent
      step on the rows `[b*batch_size, b*batch_size + batch_size)`: it
      returns exactly when the pass over that slice does, and then moves the
      flat parameter vector by `-learning_rate` times the slice's flat
      gradient vector. */
  lemma SgdBatchDescends(ls: seq<Layer>, x: Matrix, y: Matrix, rate: real, batchSize: nat, b: nat, math: Math)
    requires AllConsistent(ls)
    ensures SgdRun(ls, x, y, rate, batchSize, b, math).1 == Pass ==>
            var s := SgdRun(ls, x, y, rate, batchSize, b, math).0;
            var xb := RowSlice(x, BatchBegin(b, batchSize), BatchEnd(b, batchSize));
            var yb := RowSlice(y, BatchBegin(b, batchSize), BatchEnd(b, batchSize));
            var next := SgdRun(ls, x, y, rate, batchSize, b + 1, math);
            next == GdEpoch(s, xb, yb, rate, math) &&
            (next.1 == Pass <==> ForwardBackwardPass(s, xb, yb, math).1.Ok?) &&
            (next.1 == Pass ==>
               ParamVector(next.0) == VecSubScaled(ParamVector(s), rate, GradVector(ForwardBackwardPass(s, xb, yb, math).0).value))
  {
    if SgdRun(ls, x, y, rate, batchSize, b, math).1 == Pass {
      var s := SgdRun(ls, x, y, rate, batchSize, b, math).0;
      var xb := RowSlice(x, BatchBegin(b, batchSize), BatchEnd(b, batchSize));
      var yb := RowSlice(y, BatchBegin(b, batchSize), BatchEnd(b, batchSize));
      assert SgdRun(ls, x, y, rate, batchSize, b + 1, math) == GdEpoch(s, xb, yb, rate, math);
    }
  }

  /** After a batch has raised, no later batch runs. */
  lemma {:induction false} SgdRunStopsAtFailure(ls: seq<Layer>, x: Matrix, y: Matrix, rate: real, batchSize: nat,
                                                e: nat, n: nat, math: Math)
    requires AllConsistent(ls) && e <= n
    ensures SgdRun(ls, x, y, rate, batchSize, e, math).1.Fail? ==>
            SgdRun(ls, x, y, rate, batchSize, n, math) == SgdRun(ls, x, y, rate, batchSize, e, math)
  {
    if SgdRun(ls, x, y, rate, batchSize, e, math).1.Pass? {
      return;
    }
    var k := e;
    while k < n
      invariant e <= k <= n
      invariant SgdRun(ls, x, y, rate, batchSize, k, math) == SgdRun(ls, x, y, rate, batchSize, e, math)
    {
      k := k + 1;
    }
  }

  /** The batches still to come, run on what the first `from` left, finish
      the run of `count` batches. */
  lemma {:induction false} SgdBatchesFinishRun(ls: seq<Layer>, x: Matrix, y: Matrix, rate: real, batchSize: nat,
                                               from: nat, count: nat, math: Math)
    requires AllConsistent(ls) && from <= count
    ensures SgdRun(ls, x, y, rate, batchSize, from, math).1 == Pass ==>
            SgdBatches(SgdRun(ls, x, y, rate, batchSize, from, math).0, x, y, rate, batchSize, from, count, math) ==
            SgdRun(ls, x, y, rate, batchSize, count, math)
    decreases count - from
  {
    var before := SgdRun(ls, x, y, rate, batchSize, from, math);
    if from < count && before.1 == Pass {
      var lo, hi := BatchBegin(from, batchSize), BatchEnd(from, batchSize);
      var next := SgdRun(ls, x, y, rate, batchSize, from + 1, math);
      assert next == GdEpoch(before.0, RowSlice(x, lo, hi), RowSlice(y, lo, hi), rate, math);
      if next.1.Fail? {
        SgdRunStopsAtFailure(ls, x, y, rate, batchSize, from + 1, count, math);
      } else {
        SgdBatchesFinishRun(ls, x, y, rate, batchSize, from + 1, count, math);
        assert SgdBatches(before.0, x, y, rate, batchSize, from, count, math) ==
               SgdBatches(next.0, x, y, rate, batchSize, from + 1, count, math);
      }
    }
  }

  /** For a positive batch size, `sgd_epoch` is the run of all
      `n_samples // batch_size` batches. */
  lemma SgdEpochIsRun(ls: seq<Layer>, x: Matrix, y: Matrix, rate: real, batchSize: nat, math: Math)
    requires AllConsistent(ls) && batchSize > 0
    ensures SgdEpoch(ls, x, y, rate, batchSize, math) ==
            SgdRun(ls, x, y, rate, batchSize, NumBatches(x.rows, batchSize).value, math)
  {
    SgdBatchesFinishRun(ls, x, y, rate, batchSize, 0, NumBatches(x.rows, batchSize).value, math);
  }

  /** A batch larger than the data makes no batch at all. */
  lemma SgdOversizedBatch(ls: seq<Layer>, x: Matrix, y: Matrix, rate: real, batchSize: nat, math: Math)
    requires AllConsistent(ls) && batchSize > x.rows
    ensures SgdEpoch(ls, x, y, rate, batchSize, math) == (ls, Pass)
  {
    DivisionIsUnique(x.rows, batchSize, 0);
  }

  /** With the whole data set as the one batch, `sgd_epoch` is `gd_epoch`. */
  lemma SgdOneBatchIsGd(ls: seq<Layer>, x: Matrix, y: Matrix, rate: real, math: Math)
    requires AllConsistent(ls) && x.rows > 0 && y.rows == x.rows
    ensures SgdEpoch(ls, x, y, rate, x.rows, math) == GdEpoch(ls, x, y, rate, math)
  {
    DivisionIsUnique(x.rows, x.rows, 1);
    assert RowSlice(x, 0, x.rows) == x;
    assert RowSlice(y, 0, x.rows) == y;
  }

  // ---------------------------------------------------------------------
  // gdm_epoch
  // ---------------------------------------------------------------------

  /** `gdm_epoch`: one pass, the new velocity `-learning_rate*grads +
      mu*step`, and `set_all_params(params + step)`: the returned velocity
      is added to the flat parameter vector.  numpy refuses a velocity of
      another length; a pass that raises changes no parameter. */
  function GdmEpoch(ls: seq<Layer>, x: Matrix, y: Matrix, rate: real, velocity: seq<real>, math: Math): (r: (seq<Layer>, Result<seq<real>>))
    requires AllConsistent(ls)
    ensures AllConsistent(r.0) && |r.0| == |ls|
    ensures r.1.Ok? <==> ForwardBackwardPass(ls, x, y, math).1.Ok? && |velocity| == |ParamVector(ls)|
    ensures r.1.Ok? ==>
              r.1.value == MomentumStep(velocity, GradVector(ForwardBackwardPass(ls, x, y, math).0).value, rate) &&
              ParamVector(r.0) == VecAdd(ParamVector(ls), r.1.value)
    ensures r.1.Err? ==> ParamVector(r.0) == ParamVector(ls)
  {
    var pass := ForwardBackwardPass(ls, x, y, math);
    var bls := pass.0;
    if pass.1.Err? then (bls, Err(pass.1.error))
    else
      var grads := GradVector(bls).value;
      if |velocity| != |grads| then (bls, Err(ShapeMismatch))
      else
        var step := MomentumStep(velocity, grads, rate);
        var v := VecAdd(ParamVector(bls), step);
        var written := Unflatten(bls, v).0;
        SameLayoutConsistent(bls, written);
        ParamVectorOfUnflatten(bls, v);
        assert v[..ParamCount(bls)] == v;
        (written, Ok(step))
  }

  /** Layers refilled by `set_all_params` stay consistent. */
  lemma SameLayoutConsistent(ls: seq<Layer>, ls': seq<Layer>)
    requires AllConsistent(ls) && |ls'| == |ls|
    requires forall i :: 0 <= i < |ls| ==> SameLayout(ls[i], ls'[i])
    ensures AllConsistent(ls')
  {
  }

  // ---------------------------------------------------------------------
  // rprop
  // ---------------------------------------------------------------------

  /** `rprop`: one pass, the step update against the previous gradients,
      the masked parameter update, and `set_all_params`.  Returns the
      layers, the new `former_grad` (the current flat gradients) and the
      steps (which the source updates in the caller's array).  numpy
      refuses a previous gradient of another length (ValueError) and a step
      array of another length (IndexError), both before anything is
      written. */
  function RpropEpoch(ls: seq<Layer>, x: Matrix, y: Matrix, lastGrad: seq<real>, step: seq<real>, math: Math)
    : (r: (seq<Layer>, Result<seq<real>>, seq<real>))
    requires AllConsistent(ls)
    ensures AllConsistent(r.0) && |r.0| == |ls|
    ensures r.1.Ok? <==>
              ForwardBackwardPass(ls, x, y, math).1.Ok? && |lastGrad| == |ParamVector(ls)| && |step| == |ParamVector(ls)|
    ensures r.1.Ok? ==>
              r.1.value == GradVector(ForwardBackwardPass(ls, x, y, math).0).value &&
              r.2 == RpropSteps(step, r.1.value, lastGrad) &&
              ParamVector(r.0) == RpropParams(ParamVector(ls), r.1.value, r.2)
    ensures r.1.Err? ==> r.2 == step && ParamVector(r.0) == ParamVector(ls)
  {
    var pass := ForwardBackwardPass(ls, x, y, math);
    var bls := pass.0;
    if pass.1.Err? then (bls, Err(pass.1.error), step)
    else
      var grads := GradVector(bls).value;
      if |lastGrad| != |grads| then (bls, Err(ShapeMismatch), step)
      else if |step| != |grads| then (bls, Err(IndexOutOfRange), step)
      else
        var step' := RpropSteps(step, grads, lastGrad);
        var v := RpropParams(ParamVector(bls), grads, step');
        var written := Unflatten(bls, v).0;
        SameLayoutConsistent(bls, written);
        ParamVectorOfUnflatten(bls, v);
        assert v[..ParamCount(bls)] == v;
        (written, Ok(grads), step')
  }

  /** Positive steps stay positive through an Rprop epoch, whether it
      returns or raises. */
  lemma RpropEpochKeepsStepsPositive(ls: seq<Layer>, x: Matrix, y: Matrix, lastGrad: seq<real>, step: seq<real>, math: Math)
    requires AllConsistent(ls)
    ensures AllPositive(step) ==> AllPositive(RpropEpoch(ls, x, y, lastGrad, step, math).2)
  {
    var r := RpropEpoch(ls, x, y, lastGrad, step, math);
    if r.1.Ok? && AllPositive(step) {
      RpropStepsPositive(step, r.1.value, lastGrad);
    }
  }

  // ---------------------------------------------------------------------
  // train
  // ---------------------------------------------------------------------

  /** The values of `descent_type` that `train` knows. */
  datatype Descent = Sgd | Gd | Rprop | Gdm

  function DescentName(d: Descent): string {
    match d
    case Sgd => "sgd"
    case Gd => "gd"
    case Rprop => "rprop"
    case Gdm => "gdm"
  }

  /** Any other name raises NotImplementedError. */
  function ParseDescent(name: string): (r: Result<Descent>)
    ensures r.Ok? <==> name == "sgd" || name == "gd" || name == "rprop" || name == "gdm"
    ensures r.Ok? ==> DescentName(r.value) == name
    ensures r.Err? ==> r.error == NotImplemented
  {
    if name == "sgd" then Ok(Sgd)
    else if name == "gd" then Ok(Gd)
    else if name == "rprop" then Ok(Rprop)
    else if name == "gdm" then Ok(Gdm)
    else Err(NotImplemented)
  }

  /** What `train` carries from one epoch to the next: the layers,
      `last_grad` and `step_rprop` for Rprop, and `step_gdm` for momentum. */
  datatype Trainer = Trainer(layers: seq<Layer>, lastGrad: seq<real>, step: seq<real>, velocity: seq<real>)

  /** The three flat vectors are as long as `get_all_params()`, as `train`
      allocates them. */
  predicate Aligned(s: Trainer) {
    |s.lastGrad| == |s.step| == |s.velocity| == |ParamVector(s.layers)|
  }

  /** One pass through the body of `train`'s epoch loop, up to the
      reporting. */
  function Epoch(s: Trainer, kind: Descent, x: Matrix, y: Matrix, rate: real, batchSize: int, math: Math): (r: (Trainer, Outcome))
    requires AllConsistent(s.layers)
    ensures AllConsistent(r.0.layers)
    ensures Aligned(s) ==> Aligned(r.0)
    ensures kind != Sgd && Aligned(s) ==> (r.1 == Pass <==> ForwardBackwardPass(s.layers, x, y, math).1.Ok?)
    ensures kind != Rprop ==> r.0.step == s.step
    ensures kind == Rprop ==> r.0.step == RpropEpoch(s.layers, x, y, s.lastGrad, s.step, math).2
    ensures Healthy(s) ==> Healthy(r.0)
    // which descent gives the new layers and vectors
    ensures kind == Sgd ==> (r.0.layers, r.1) == SgdEpoch(s.layers, x, y, rate, batchSize, math)
    ensures kind == Gd ==> (r.0.layers, r.1) == GdEpoch(s.layers, x, y, rate, math)
    ensures kind == Gdm ==>
              var e := GdmEpoch(s.layers, x, y, rate, s.velocity, math);
              r.0.layers == e.0 && (r.1 == Pass <==> e.1.Ok?) &&
              r.0.velocity == (if e.1.Ok? then e.1.value else s.velocity)
    ensures kind == Rprop ==>
              var e := RpropEpoch(s.layers, x, y, s.lastGrad, s.step, math);
              r.0.layers == e.0 && (r.1 == Pass <==> e.1.Ok?) &&
              r.0.lastGrad == (if e.1.Ok? then e.1.value else s.lastGrad)
    ensures kind != Gdm ==> r.0.velocity == s.velocity
    ensures kind != Rprop ==> r.0.lastGrad == s.lastGrad
  {
    match kind
    case Sgd =>
      var e := SgdEpoch(s.layers, x, y, rate, batchSize, math);
      SgdEpochKeepsCount(s.layers, x, y, rate, batchSize, math);
      (s.(layers := e.0), e.1)
    case Gd =>
      var e := GdEpoch(s.layers, x, y, rate, math);
      (s.(layers := e.0), e.1)
    case Rprop =>
      var e := RpropEpoch(s.layers, x, y, s.lastGrad, s.step, math);
      RpropEpochKeepsStepsPositive(s.layers, x, y, s.lastGrad, s.step, math);
      if e.1.Err? then (s.(layers := e.0, step := e.2), Fail(e.1.error))
      else (s.(layers := e.0, lastGrad := e.1.value, step := e.2), Pass)
    case Gdm =>
      var e := GdmEpoch(s.layers, x, y, rate, s.velocity, math);
      if e.1.Err? then (s.(layers := e.0), Fail(e.1.error))
      else (s.(layers := e.0, velocity := e.1.value), Pass)
  }

  /** `n` epochs; the first that raises ends training. */
  function Epochs(s: Trainer, kind: Descent, x: Matrix, y: Matrix, rate: real, batchSize: int,
                  n: nat, math: Math): (r: (Trainer, Outcome))
    requires AllConsistent(s.layers)
    ensures AllConsistent(r.0.layers)
    ensures Healthy(s) ==> Healthy(r.0)
    decreases n, 1
  {
    if n == 0 then (s, Pass) else LastEpoch(s, kind, x, y, rate, batchSize, n, math)
  }

  /** The `n`-th epoch runs on what the `n - 1` before it left, unless one
      of those raised. */
  function LastEpoch(s: Trainer, kind: Descent, x: Matrix, y: Matrix, rate: real, batchSize: int,
                     n: nat, math: Math): (r: (Trainer, Outcome))
    requires AllConsistent(s.layers) && n > 0
    ensures AllConsistent(r.0.layers)
    ensures Healthy(s) ==> Healthy(r.0)
    decreases n, 0
  {
    var before := Epochs(s, kind, x, y, rate, batchSize, n - 1, math);
    if before.1.Fail? then before
    else Epoch(before.0, kind, x, y, rate, batchSize, math)
  }

  /** One more epoch after `e` successful ones is one `Epoch` of the state
      they reached. */
  lemma EpochsNext(s: Trainer, kind: Descent, x: Matrix, y: Matrix, rate: real, batchSize: int,
                   e: nat, math: Math)
    requires AllConsistent(s.layers)
    requires Epochs(s, kind, x, y, rate, batchSize, e, math).1 == Pass
    ensures Epochs(s, kind, x, y, rate, batchSize, e + 1, math) ==
            Epoch(Epochs(s, kind, x, y, rate, batchSize, e, math).0, kind, x, y, rate, batchSize, math)
  {
  }

  /** An epoch count past a failure adds nothing. */
  lemma EpochsStayFailed(s: Trainer, kind: Descent, x: Matrix, y: Matrix, rate: real, batchSize: int,
                         e: nat, math: Math)
    requires AllConsistent(s.layers)
    requires Epochs(s, kind, x, y, rate, batchSize, e, math).1.Fail?
    ensures Epochs(s, kind, x, y, rate, batchSize, e + 1, math) == Epochs(s, kind, x, y, rate, batchSize, e, math)
  {
  }

  /** Once an epoch has raised, later epochs never run. */
  lemma {:induction false} EpochsStopAtFailure(s: Trainer, kind: Descent, x: Matrix, y: Matrix, rate: real,
                                               batchSize: int, e: nat, n: nat, math: Math)
    requires AllConsistent(s.layers) && e <= n
    requires Epochs(s, kind, x, y, rate, batchSize, e, math).1.Fail?
    ensures Epochs(s, kind, x, y, rate, batchSize, n, math) == Epochs(s, kind, x, y, rate, batchSize, e, math)
  {
    var k := e;
    while k < n
      invariant e <= k <= n
      invariant Epochs(s, kind, x, y, rate, batchSize, k, math) == Epochs(s, kind, x, y, rate, batchSize, e, math)
    {
      EpochsStayFailed(s, kind, x, y, rate, batchSize, k, math);
      k := k + 1;
    }
  }

  /** The state `train` starts from: all-0.1 Rprop steps, zero last
      gradient and zero momentum, each as long as the parameter vector. */
  function Start(ls: seq<Layer>): (s: Trainer)
    ensures Aligned(s) && AllPositive(s.step) && s.layers == ls
  {
    var n := |ParamVector(ls)|;
    Trainer(ls, Zeros(n), seq(n, i => InitialStep), Zeros(n))
  }

  /** `train` with one-hot targets: both label vectors are one-hot encoded
      (either may raise), then `max_epochs + 1` epochs of the chosen
      descent; an unknown descent type raises in the first epoch, before
      anything changes. */
  function Train(ls: seq<Layer>, x: Matrix, labels: seq<nat>, valLabels: seq<nat>, rate: real,
                 maxEpochs: nat, batchSize: int, descent: string, math: Math): (r: (seq<Layer>, Outcome))
    requires AllConsistent(ls)
    ensures AllConsistent(r.0)
    ensures !LabelsBelow(labels, NumClasses(labels)) || !LabelsBelow(valLabels, NumClasses(valLabels)) ==>
              r == (ls, Fail(IndexOutOfRange))
    ensures ParseDescent(descent).Err? ==> r.0 == ls && r.1.Fail?
  {
    if !LabelsBelow(labels, NumClasses(labels)) || !LabelsBelow(valLabels, NumClasses(valLabels)) then
      (ls, Fail(IndexOutOfRange))
    else
      var kind := ParseDescent(descent);
      if kind.Err? then (ls, Fail(kind.error))
      else
        var y := OneHotOf(labels, NumClasses(labels));
        var e := Epochs(Start(ls), kind.value, x, y, rate, batchSize, maxEpochs + 1, math);
        (e.0.layers, e.1)
  }

  /** The shape `train` keeps its state in: a consistent network, flat
      vectors as long as its parameter vector and positive Rprop steps. */
  predicate Healthy(s: Trainer) {
    AllConsistent(s.layers) && Aligned(s) && AllPositive(s.step)
  }

  /** Started as `train` starts them, the Rprop and momentum vectors always
      fit the network: those epochs raise only when the forward or backward
      pass does, never on the lengths of `last_grad`, `step` or the
      velocity. */
  lemma TrainEpochRaisesOnlyInPass(ls: seq<Layer>, kind: Descent, x: Matrix, y: Matrix, rate: real,
                                   batchSize: int, n: nat, math: Math)
    requires AllConsistent(ls) && kind != Sgd
    ensures var s := Epochs(Start(ls), kind, x, y, rate, batchSize, n, math).0;
            Aligned(s) && AllPositive(s.step) &&
            (Epoch(s, kind, x, y, rate, batchSize, math).1 == Pass <==>
             ForwardBackwardPass(s.layers, x, y, math).1.Ok?)
  {
    var s := Epochs(Start(ls), kind, x, y, rate, batchSize, n, math).0;
    assert Aligned(s);
  }
}
