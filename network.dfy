/** The `NeuralNetwork` container of Ex01/NeuralNetwork.py: a list of layers
    that its methods update in place.  Each method is proved to leave the
    layers, and to return, exactly what the matching specification function
    of `Pipeline`, `ParamLayout` or `Training` describes, so that everything
    proved about those functions holds of the methods. */
module Network {
  import opened Outcomes
  import opened Matrices
  import opened Activations
  import opened Labels
  import opened Layers
  import opened ParamLayout
  import opened Pipeline
  import opened UpdateRules
  import opened Training

  class NeuralNetwork {
    var layers: seq<Layer>

    /** Every layer keeps the shapes its construction established. */
    predicate Valid()
      reads this
    {
      AllConsistent(layers)
    }

    constructor(layers: seq<Layer>)
      ensures this.layers == layers
      ensures AllConsistent(layers) ==> Valid()
    {
      this.layers := layers;
    }

    /** `predict`: `fprop` through every layer in order.  A layer that
        raises ends the pass; the layers before it keep their caches. */
    method Predict(x: Matrix, math: Math) returns (r: Result<Matrix>)
      requires Valid()
      modifies this
      ensures Valid()
      ensures (layers, r) == Forward(old(layers), x, math)
    {
      var ls;
      ls, r := ForwardLoop(layers, x, math);
      layers := ls;
    }

    /** `backpropagate`: the last layer's `input_grad(Y, Y_pred)` as the seed,
        then `bprop` through the other layers from the back.  A layer that
        raises ends the pass; the layers after it keep their gradients. */
    method Backpropagate(y: Matrix, yPred: Matrix, math: Math) returns (r: Result<Matrix>)
      requires Valid()
      modifies this
      ensures Valid()
      ensures (layers, r) == Pipeline.Backpropagate(old(layers), y, yPred, math)
    {
      if |layers| == 0 {
        return Err(IndexOutOfRange);
      }
      var n := |layers| - 1;
      var seed := InputGrad(layers[n], y, yPred);
      if seed.Err? {
        return Err(seed.error);
      }
      var front;
      front, r := BackwardLoop(layers[..n], seed.value, math);
      layers := front + [layers[n]];
    }

    /** `classification_error`: the fraction of rows whose predicted class,
        the column of the largest output, differs from the label. */
    method ClassificationError(x: Matrix, labels: seq<nat>, math: Math) returns (r: Result<real>)
      requires Valid()
      modifies this
      ensures Valid()
      ensures var f := Forward(old(layers), x, math);
              layers == f.0 &&
              r == (if f.1.Err? then Err(f.1.error) else Labels.ClassificationError(f.1.value, labels))
    {
      var yPred := Predict(x, math);
      if yPred.Err? {
        return Err(yPred.error);
      }
      var predicted := Unhot(yPred.value);
      if predicted.Err? {
        return Err(predicted.error);
      }
      r := ErrorRate(predicted.value, labels);
    }

    /** `get_all_params`: `ravel(W)` then `b` of every parameterized layer,
        appended in layer order. */
    method GetAllParams() returns (v: Vector)
      ensures v == ParamVector(layers)
    {
      var ls := layers;
      v := [];
      var i := 0;
      assert ls[0..] == ls;
      while i < |ls|
        invariant 0 <= i <= |ls|
        invariant v + ParamVector(ls[i..]) == ParamVector(ls)
      {
        ParamVectorStep(ls, i);
        Associative(v, LayerParams(ls[i]), ParamVector(ls[i + 1..]));
        var l := ls[i];
        if l.Parameterized() {
          Associative(v, Ravel(l.W), l.b);
          v := v + Ravel(l.W);
          v := v + l.b;
        } else {
          assert v + LayerParams(l) == v;
        }
        i := i + 1;
      }
      assert v + ParamVector(ls[i..]) == v;
    }

    /** `get_all_grads`: `ravel(dW)` then `db` of every parameterized layer,
        in the same order as `get_all_params`.  A layer whose gradients were
        never computed makes it an error. */
    method GetAllGrads() returns (r: Result<Vector>)
      ensures r == GradVector(layers)
    {
      var ls := layers;
      var v: Vector := [];
      var i := 0;
      assert ls[0..] == ls;
      if GradVector(ls).Ok? {
        assert v + GradVector(ls).value == GradVector(ls).value;
      }
      while i < |ls|
        invariant 0 <= i <= |ls|
        invariant GradVector(ls) == Prefixed(v, GradVector(ls[i..]))
      {
        GradVectorStep(ls, i, v);
        var l := ls[i];
        if l.Parameterized() {
          if l.dW.None? || l.db.None? {
            return Err(TypeMismatch);
          }
          Associative(v, Ravel(l.dW.value), l.db.value);
          v := v + Ravel(l.dW.value);
          v := v + l.db.value;
        } else {
          assert v + LayerGrads(l).value == v;
        }
        i := i + 1;
      }
      assert v + GradVector(ls[i..]).value == v;
      r := Ok(v);
    }

    /** `set_all_params`: every parameterized layer's `W`, then its `b`, is
        overwritten from the vector at a running offset.  A vector that runs
        out makes the reshape raise, and what was written stays written. */
    method SetAllParams(v: Vector) returns (o: Outcome)
      requires Valid()
      modifies this
      ensures Valid()
      ensures (layers, o) == Unflatten(old(layers), v)
    {
      var ls;
      ls, o := UnflattenLoop(layers, v);
      SameLayoutConsistent(layers, ls);
      layers := ls;
    }

    /** `gd_epoch`: a forward and a backward pass, then
        `param -= learning_rate*grad` for `W` and `b` of every
        parameterized layer. */
    method GdEpoch(x: Matrix, y: Matrix, rate: real, math: Math) returns (o: Outcome)
      requires Valid()
      modifies this
      ensures Valid()
      ensures (layers, o) == Training.GdEpoch(old(layers), x, y, rate, math)
    {
      var yPred := Predict(x, math);
      if yPred.Err? {
        return Fail(yPred.error);
      }
      var grad := Backpropagate(y, yPred.value, math);
      if grad.Err? {
        return Fail(grad.error);
      }
      assert ForwardBackwardPass(old(layers), x, y, math) == (layers, grad);
      ApplyGradients(rate);
      o := Pass;
    }

    /** The update loop of `gd_epoch` and `sgd_epoch`:
        `param -= learning_rate*grad`, first for `W` and then for `b`, in
        every parameterized layer. */
    method ApplyGradients(rate: real)
      requires Valid() && AllHaveGrads(layers)
      modifies this
      ensures Valid()
      ensures layers == Descend(old(layers), rate)
    {
      ghost var start := layers;
      var i := 0;
      while i < |layers|
        invariant 0 <= i <= |layers| == |start|
        invariant AllConsistent(start) && AllHaveGrads(start)
        invariant forall k :: 0 <= k < i ==> layers[k] == DescendLayer(start[k], rate)
        invariant forall k :: i <= k < |layers| ==> layers[k] == start[k]
      {
        var l := layers[i];
        if l.Parameterized() {
          layers := layers[i := l.(W := SubScaled(l.W, rate, l.dW.value))];
          layers := layers[i := layers[i].(b := VecSubScaled(l.b, rate, l.db.value))];
        }
        i := i + 1;
      }
    }

    /** `sgd_epoch`: `n_samples // batch_size` gradient-descent steps, each
        on the next `batch_size` consecutive rows. */
    method SgdEpoch(x: Matrix, y: Matrix, rate: real, batchSize: int, math: Math) returns (o: Outcome)
      requires Valid()
      modifies this
      ensures Valid()
      ensures (layers, o) == Training.SgdEpoch(old(layers), x, y, rate, batchSize, math)
    {
      var count := NumBatches(x.rows, batchSize);
      if count.Err? {
        return Fail(count.error);
      }
      if batchSize < 0 {
        return Pass;
      }
      ghost var start := layers;
      var b := 0;
      while b < count.value
        invariant Valid()
        invariant SgdBatches(start, x, y, rate, batchSize, 0, count.value, math) ==
                    SgdBatches(layers, x, y, rate, batchSize, b, count.value, math)
      {
        var lo := BatchBegin(b, batchSize);
        var hi := BatchEnd(b, batchSize);
        o := GdEpoch(RowSlice(x, lo, hi), RowSlice(y, lo, hi), rate, math);
        if o.Fail? {
          return;
        }
        b := b + 1;
      }
      o := Pass;
    }

    /** `gdm_epoch`: a forward and a backward pass, the new velocity
        `-learning_rate*grads + mu*step`, and `set_all_params` of the
        parameters plus the velocity, which it returns. */
    method GdmEpoch(x: Matrix, y: Matrix, rate: real, velocity: seq<real>, math: Math) returns (r: Result<seq<real>>)
      requires Valid()
      modifies this
      ensures Valid()
      ensures (layers, r) == Training.GdmEpoch(old(layers), x, y, rate, velocity, math)
    {
      var yPred := Predict(x, math);
      if yPred.Err? {
        return Err(yPred.error);
      }
      var grad := Backpropagate(y, yPred.value, math);
      if grad.Err? {
        return Err(grad.error);
      }
      assert ForwardBackwardPass(old(layers), x, y, math) == (layers, grad);
      ghost var passed := layers;
      var grads := GetAllGrads();
      if |velocity| != |grads.value| {
        return Err(ShapeMismatch);
      }
      var step := MomentumStep(velocity, grads.value, rate);
      var params := GetAllParams();
      var written := SetAllParams(VecAdd(params, step));
      SameLayoutConsistent(passed, layers);
      r := Ok(step);
    }

    /** `rprop`: a forward and a backward pass; each step grows by `nplus`
        where the gradient kept its sign and shrinks by `nminus` where it
        flipped (in the caller's array); each parameter moves by its step
        against the sign of its gradient; the gradients are returned as the
        next `former_grad`. */
    method Rprop(x: Matrix, y: Matrix, lastGrad: seq<real>, step: array<real>, math: Math) returns (r: Result<seq<real>>)
      requires Valid()
      modifies this, step
      ensures Valid()
      ensures var e := RpropEpoch(old(layers), x, y, lastGrad, old(step[..]), math);
              layers == e.0 && r == e.1 && step[..] == e.2
    {
      var yPred := Predict(x, math);
      if yPred.Err? {
        return Err(yPred.error);
      }
      var grad := Backpropagate(y, yPred.value, math);
      if grad.Err? {
        return Err(grad.error);
      }
      assert ForwardBackwardPass(old(layers), x, y, math) == (layers, grad);
      ghost var passed := layers;
      var grads := GetAllGrads();
      var g := grads.value;
      if |lastGrad| != |g| {
        return Err(ShapeMismatch);
      }
      if step.Length != |g| {
        return Err(IndexOutOfRange);
      }
      UpdateSteps(step, g, lastGrad);
      var params := GetAllParams();
      var p := MoveParams(params, g, step[..]);
      var written := SetAllParams(p);
      SameLayoutConsistent(passed, layers);
      r := Ok(g);
    }

    /** The body of `train`'s epoch loop, up to the reporting: after `e`
        epochs of a run that started from `start` have passed, run epoch
        `e + 1` of the chosen descent, carrying the Rprop and momentum
        state. */
    method RunEpoch(kind: Descent, x: Matrix, y: Matrix, rate: real, batchSize: int,
                    lastGrad: seq<real>, step: array<real>, velocity: seq<real>, math: Math,
                    ghost start: Trainer, ghost e: nat)
      returns (o: Outcome, lastGrad': seq<real>, velocity': seq<real>)
      requires Valid() && AllConsistent(start.layers)
      requires Epochs(start, kind, x, y, rate, batchSize, e, math) == (Trainer(layers, lastGrad, step[..], velocity), Pass)
      modifies this, step
      ensures Valid()
      ensures Epochs(start, kind, x, y, rate, batchSize, e + 1, math) == (Trainer(layers, lastGrad', step[..], velocity'), o)
    {
      EpochsNext(start, kind, x, y, rate, batchSize, e, math);
      lastGrad', velocity' := lastGrad, velocity;
      match kind {
        case Sgd =>
          o := SgdEpoch(x, y, rate, batchSize, math);
        case Gd =>
          o := GdEpoch(x, y, rate, math);
        case Rprop =>
          var g := Rprop(x, y, lastGrad, step, math);
          if g.Err? {
            return Fail(g.error), lastGrad, velocity;
          }
          o, lastGrad' := Pass, g.value;
        case Gdm =>
          var v := GdmEpoch(x, y, rate, velocity, math);
          if v.Err? {
            return Fail(v.error), lastGrad, velocity;
          }
          o, velocity' := Pass, v.value;
      }
    }

    /** `train` with one-hot targets: encode both label vectors, start the
        Rprop steps at 0.1 and the previous gradient and the velocity at
        zero, then run `max_epochs + 1` epochs of the chosen descent. */
    method Train(x: Matrix, labels: seq<nat>, valLabels: seq<nat>, rate: real, maxEpochs: nat,
                 batchSize: int, descent: string, math: Math) returns (o: Outcome)
      requires Valid()
      modifies this
      ensures Valid()
      ensures (layers, o) == Training.Train(old(layers), x, labels, valLabels, rate, maxEpochs, batchSize, descent, math)
    {
      var yTrain := OneHot(labels);
      if yTrain.Err? {
        return Fail(yTrain.error);
      }
      var yVal := OneHot(valLabels);
      if yVal.Err? {
        return Fail(yVal.error);
      }
      var params := GetAllParams();
      var step := new real[|params|](i => InitialStep);
      var lastGrad := Zeros(|params|);
      var velocity := Zeros(|params|);
      var kind := ParseDescent(descent);
      if kind.Err? {
        return Fail(kind.error);
      }
      assert step[..] == Start(layers).step;
      o := RunEpochs(kind.value, x, yTrain.value, rate, batchSize, lastGrad, step, velocity, maxEpochs + 1, math,
                     Start(layers));
    }

    /** `train`'s epoch loop: `n` epochs of one descent; the first epoch
        that raises ends the loop. */
    method RunEpochs(kind: Descent, x: Matrix, y: Matrix, rate: real, batchSize: int,
                     lastGrad: seq<real>, step: array<real>, velocity: seq<real>, n: nat, math: Math,
                     ghost start: Trainer)
      returns (o: Outcome)
      requires Valid() && start == Trainer(layers, lastGrad, step[..], velocity)
      modifies this, step
      ensures Valid()
      ensures layers == Epochs(start, kind, x, y, rate, batchSize, n, math).0.layers
      ensures o == Epochs(start, kind, x, y, rate, batchSize, n, math).1
    {
      var lastGrad', velocity' := lastGrad, velocity;
      ghost var current := start;
      var e := 0;
      o := Pass;
      while e < n && o.Pass?
        invariant 0 <= e <= n
        invariant Valid()
        invariant current == Trainer(layers, lastGrad', step[..], velocity')
        invariant (current, o) == Epochs(start, kind, x, y, rate, batchSize, e, math)
      {
        o, lastGrad', velocity' := RunEpoch(kind, x, y, rate, batchSize, lastGrad', step, velocity', math, start, e);
        current := Trainer(layers, lastGrad', step[..], velocity');
        e := e + 1;
      }
      if e < n {
        EpochsStopAtFailure(start, kind, x, y, rate, batchSize, e, n, math);
      }
    }
  }

  /** The loop of `predict`: `fprop` of each layer in turn, the output of
      one the input of the next; a layer that raises ends the pass. */
  method ForwardLoop(start: seq<Layer>, x: Matrix, math: Math) returns (ls: seq<Layer>, r: Result<Matrix>)
    requires AllConsistent(start)
    ensures (ls, r) == Forward(start, x, math)
  {
    ls := start;
    var next := x;
    var i := 0;
    assert start[0..] == start && ls[..0] + Forward(start, x, math).0 == Forward(start, x, math).0;
    while i < |ls|
      invariant 0 <= i <= |ls| == |start|
      invariant ls[i..] == start[i..]
      invariant Forward(start, x, math) ==
                  (ls[..i] + Forward(start[i..], next, math).0, Forward(start[i..], next, math).1)
    {
      var step := Fprop(ls[i], next, math);
      ForwardStep(start, i, next, ls[..i], math);
      if step.1.Err? {
        Rejoin(ls, i);
        return ls, step.1;
      }
      ghost var done := ls[..i];
      ls := ls[i := step.0];
      assert ls[..i + 1] == done + [step.0];
      next := step.1.value;
      i := i + 1;
    }
    assert ls[..i] + [] == ls && start[i..] == [];
    r := Ok(next);
  }

  /** The loop of `backpropagate`: `bprop` through `front`, the layers
      before the output layer, from the last to the first. */
  method BackwardLoop(front: seq<Layer>, g: Matrix, math: Math) returns (ls: seq<Layer>, r: Result<Matrix>)
    requires AllConsistent(front)
    ensures (ls, r) == Backward(front, g, math)
  {
    ls := front;
    var next := g;
    var i := |front|;
    assert front[..i] == front && Backward(front, g, math).0 + ls[i..] == Backward(front, g, math).0;
    while i > 0
      invariant 0 <= i <= |front| == |ls|
      invariant ls[..i] == front[..i]
      invariant Backward(front, g, math) ==
                  (Backward(front[..i], next, math).0 + ls[i..], Backward(front[..i], next, math).1)
    {
      var step := Bprop(ls[i - 1], next, math);
      ghost var done := ls[i..];
      BackwardStep(front, i, next, done, math);
      if step.1.Err? {
        Rejoin(ls, i);
        return ls, step.1;
      }
      ls := ls[i - 1 := step.0];
      assert ls[i - 1..] == [step.0] + done;
      next := step.1.value;
      i := i - 1;
    }
    assert front[..0] == [] && Backward(front[..0], next, math) == ([], Ok(next));
    assert [] + ls[0..] == ls;
    r := Ok(next);
  }

  /** The loop of `set_all_params`: each layer filled in turn from a
      running offset into `v`. */
  method UnflattenLoop(start: seq<Layer>, v: Vector) returns (ls: seq<Layer>, o: Outcome)
    ensures (ls, o) == Unflatten(start, v)
  {
    ls := start;
    var offset := 0;
    var i := 0;
    assert start[0..] == start && v[0..] == v;
    assert ls[..0] + Unflatten(start, v).0 == Unflatten(start, v).0;
    while i < |ls|
      invariant 0 <= i <= |ls| == |start|
      invariant offset <= |v|
      invariant ls[i..] == start[i..]
      invariant Unflatten(start, v) ==
                  (ls[..i] + Unflatten(start[i..], v[offset..]).0, Unflatten(start[i..], v[offset..]).1)
    {
      ghost var done := ls[..i];
      assert ls[i + 1..] == start[i + 1..];
      UnflattenStep(start, i, v[offset..], done);
      var filled, next, outcome := FillParams(ls[i], v, offset);
      ls := ls[i := filled];
      if outcome.Fail? {
        Splice(ls, i);
        return ls, outcome;
      }
      assert v[offset..][next - offset..] == v[next..];
      assert ls[..i + 1] == done + [filled];
      offset := next;
      i := i + 1;
    }
    assert ls[..i] + [] == ls && start[i..] == [];
    o := Pass;
  }

  /** One parameterized layer's part of `set_all_params`: `W` is
      overwritten from the `rows*cols` entries at `offset`, then `b` from the
      entries after those; `next` is the offset after the layer. */
  method FillParams(l: Layer, v: Vector, offset: nat) returns (l': Layer, next: nat, o: Outcome)
    requires offset <= |v|
    ensures (l', o) == FillLayer(l, v[offset..])
    ensures o.Pass? ==> next == offset + ParamSize(l) <= |v|
  {
    l', next, o := l, offset, Pass;
    if l.Parameterized() {
      var size := l.W.rows * l.W.cols;
      if |v| - offset < size {
        return l', next, Fail(ShapeMismatch);
      }
      assert v[offset..][..size] == v[offset..offset + size];
      l' := l'.(W := Reshape(v[offset..offset + size], l.W.rows, l.W.cols));
      next := offset + size;
      if |v| - next < |l.b| {
        return l', next, Fail(ShapeMismatch);
      }
      assert v[offset..][size..size + |l.b|] == v[next..next + |l.b|];
      l' := l'.(b := v[next..next + |l.b|]);
      next := next + |l.b|;
    }
  }

  /** The masked step update of `rprop`, in the caller's array. */
  method UpdateSteps(step: array<real>, grad: seq<real>, prev: seq<real>)
    requires step.Length == |grad| == |prev|
    modifies step
    ensures step[..] == RpropSteps(old(step[..]), grad, prev)
  {
    forall i | 0 <= i < step.Length && grad[i] * prev[i] > 0.0 {
      step[i] := Increase * step[i];
    }
    forall i | 0 <= i < step.Length && grad[i] * prev[i] < 0.0 {
      step[i] := Decrease * step[i];
    }
  }

  /** The masked parameter update of `rprop` on a copy of the flat
      parameters: up by the step where the gradient is negative, then down
      by it where the gradient is positive. */
  method MoveParams(params: seq<real>, grad: seq<real>, step: seq<real>) returns (p: seq<real>)
    requires |params| == |grad| == |step|
    ensures p == RpropParams(params, grad, step)
  {
    var a := new real[|params|](i requires 0 <= i < |params| => params[i]);
    forall i | 0 <= i < a.Length && grad[i] < 0.0 {
      a[i] := a[i] + step[i];
    }
    forall i | 0 <= i < a.Length && grad[i] > 0.0 {
      a[i] := a[i] - step[i];
    }
    p := a[..];
  }

  // Sequence facts the loops above need, stated apart from them: the same
  // facts asserted inside the loops, next to every layer function in scope,
  // cost the solver far more.

  lemma Associative<T>(a: seq<T>, b: seq<T>, c: seq<T>)
    ensures a + (b + c) == (a + b) + c
  {
  }

  lemma Rejoin<T>(s: seq<T>, i: nat)
    requires i <= |s|
    ensures s[..i] + s[i..] == s
  {
  }

  lemma Splice<T>(s: seq<T>, i: nat)
    requires i < |s|
    ensures (s[..i] + [s[i]]) + s[i + 1..] == s
  {
  }
}
