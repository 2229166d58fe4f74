/** `NeuralNetwork.predict` and `NeuralNetwork.backpropagate` as folds over
    the layer list (Ex01/NeuralNetwork.py): `fprop` through every layer in
    order, then the last layer's `input_grad` as the seed and `bprop`
    through the other layers in reverse order.  Each pass returns the layer
    states it leaves behind, including those left by a pass that raised
    half-way. */
module Pipeline {
  import opened Outcomes
  import opened Matrices
  import opened Activations
  import opened Layers
  import opened ParamLayout

  /** Every layer accepts the width the layer before it produces. */
  predicate Chains(ls: seq<Layer>, width: nat) {
    ls == [] || (AcceptsWidth(ls[0], width) && Chains(ls[1..], OutWidth(ls[0], width)))
  }

  /** The width that comes out of the last layer. */
  function FinalWidth(ls: seq<Layer>, width: nat): nat {
    if ls == [] then width else FinalWidth(ls[1..], OutWidth(ls[0], width))
  }

  /** Pointwise: two layer lists that differ only in caches. */
  predicate AllSameWeights(ls: seq<Layer>, ls': seq<Layer>) {
    |ls'| == |ls| && forall i :: 0 <= i < |ls| ==> SameWeights(ls[i], ls'[i])
  }

  predicate AllPrimed(ls: seq<Layer>, n: nat) {
    forall i :: 0 <= i < |ls| ==> Primed(ls[i], n)
  }

  /** `predict`: each layer's `fprop` applied to the previous output.  A
      layer that raises stops the pass; the layers before it keep what
      their `fprop` cached. */
  function Forward(ls: seq<Layer>, x: Matrix, math: Math): (r: (seq<Layer>, Result<Matrix>))
    requires AllConsistent(ls)
    ensures AllConsistent(r.0)
    ensures AllSameWeights(ls, r.0)
    ensures forall i :: 0 <= i < |ls| && ls[i].FullyConnected? ==> r.0[i].dW == ls[i].dW && r.0[i].db == ls[i].db
    ensures r.1.Ok? <==> Chains(ls, x.cols)
    ensures r.1.Ok? ==> r.1.value.rows == x.rows && r.1.value.cols == FinalWidth(ls, x.cols)
    ensures r.1.Ok? ==> AllPrimed(r.0, x.rows)
  {
    if ls == [] then ([], Ok(x))
    else
      var (l', y) := Fprop(ls[0], x, math);
      if y.Err? then (ls, y)
      else
        var (rest, out) := Forward(ls[1..], y.value, math);
        ([l'] + rest, out)
  }

  /** The `bprop` fold of `backpropagate`, over `reversed(ls)`: the last
      layer first.  A layer that raises stops the pass; the layers after it
      keep the gradients their `bprop` stored. */
  function Backward(ls: seq<Layer>, g: Matrix, math: Math): (r: (seq<Layer>, Result<Matrix>))
    requires AllConsistent(ls)
    ensures AllConsistent(r.0)
    ensures AllSameWeights(ls, r.0)
    ensures forall i :: 0 <= i < |ls| && ls[i].FullyConnected? ==>
              r.0[i].lastInput == ls[i].lastInput && r.0[i].act == ls[i].act
    ensures r.1.Ok? ==> r.1.value.rows == g.rows
    ensures r.1.Ok? ==> AllHaveGrads(r.0)
    decreases |ls|
  {
    if ls == [] then ([], Ok(g))
    else
      var n := |ls| - 1;
      var (l', d) := Bprop(ls[n], g, math);
      if d.Err? then (ls, d)
      else
        var (front, out) := Backward(ls[..n], d.value, math);
        (front + [l'], out)
  }

  /** `backpropagate`: seed with the last layer's `input_grad(Y, Y_pred)`
      (IndexError on an empty network, AttributeError when the last layer
      is not an output layer), then `bprop` through `layers[:-1]` in
      reverse. */
  function Backpropagate(ls: seq<Layer>, y: Matrix, yPred: Matrix, math: Math): (r: (seq<Layer>, Result<Matrix>))
    requires AllConsistent(ls)
    ensures ls == [] ==> r == (ls, Err(IndexOutOfRange))
    ensures ls != [] && !ls[|ls| - 1].IsOutput() ==> r == (ls, Err(MissingAttribute))
    ensures AllConsistent(r.0)
    ensures AllSameWeights(ls, r.0)
    ensures r.1.Ok? ==> r.1.value.rows == y.rows && AllHaveGrads(r.0)
  {
    if ls == [] then (ls, Err(IndexOutOfRange))
    else
      var n := |ls| - 1;
      var seed := InputGrad(ls[n], y, yPred);
      if seed.Err? then (ls, Err(seed.error))
      else
        var (front, out) := Backward(ls[..n], seed.value, math);
        (front + [ls[n]], out)
  }

  /** One step of `Forward` from layer `i` on: a layer that raises ends the
      fold, otherwise its new state joins the finished prefix `done`. */
  lemma ForwardStep(ls: seq<Layer>, i: nat, x: Matrix, done: seq<Layer>, math: Math)
    requires AllConsistent(ls) && i < |ls|
    ensures var step := Fprop(ls[i], x, math);
            var rest := Forward(ls[i + 1..], if step.1.Ok? then step.1.value else x, math);
            if step.1.Err? then Forward(ls[i..], x, math) == (ls[i..], step.1)
            else done + Forward(ls[i..], x, math).0 == (done + [step.0]) + rest.0 &&
                 Forward(ls[i..], x, math).1 == rest.1
  {
    assert ls[i..][1..] == ls[i + 1..];
    var step := Fprop(ls[i], x, math);
    if step.1.Ok? {
      var rest := Forward(ls[i + 1..], step.1.value, math);
      assert done + ([step.0] + rest.0) == (done + [step.0]) + rest.0;
    }
  }

  /** One step of `Backward` down to layer `i - 1`: a layer that raises
      ends the fold, otherwise its new state joins the finished suffix
      `done`. */
  lemma BackwardStep(ls: seq<Layer>, i: nat, g: Matrix, done: seq<Layer>, math: Math)
    requires AllConsistent(ls) && 0 < i <= |ls|
    ensures var step := Bprop(ls[i - 1], g, math);
            var front := Backward(ls[..i - 1], if step.1.Ok? then step.1.value else g, math);
            if step.1.Err? then Backward(ls[..i], g, math) == (ls[..i], step.1)
            else Backward(ls[..i], g, math).0 + done == front.0 + ([step.0] + done) &&
                 Backward(ls[..i], g, math).1 == front.1
  {
    assert ls[..i][..i - 1] == ls[..i - 1];
    var step := Bprop(ls[i - 1], g, math);
    if step.1.Ok? {
      var front := Backward(ls[..i - 1], step.1.value, math);
      assert (front.0 + [step.0]) + done == front.0 + ([step.0] + done);
    }
  }

  // ---------------------------------------------------------------------
  // Shapes along the layer list
  // ---------------------------------------------------------------------

  lemma {:induction false} ChainsSnoc(ls: seq<Layer>, width: nat)
    requires ls != []
    ensures Chains(ls, width) <==>
              Chains(ls[..|ls| - 1], width) && AcceptsWidth(ls[|ls| - 1], FinalWidth(ls[..|ls| - 1], width))
    ensures FinalWidth(ls, width) == OutWidth(ls[|ls| - 1], FinalWidth(ls[..|ls| - 1], width))
  {
    if |ls| > 1 {
      ChainsSnoc(ls[1..], OutWidth(ls[0], width));
      assert ls[1..][..|ls| - 2] == ls[..|ls| - 1][1..];
    }
  }

  /** The layers before the output layer: no output layer among them, and
      each fully connected one holds the caches of a forward pass over `n`
      samples. */
  predicate ReadyForBackward(ls: seq<Layer>, n: nat) {
    AllConsistent(ls) && AllPrimed(ls, n) && forall i :: 0 <= i < |ls| ==> !ls[i].IsOutput()
  }

  /** After a forward pass over `n > 0` samples, the backward pass through
      layers that contain no output layer succeeds for every upstream
      gradient as wide as their output, and returns a gradient as wide as
      their input. */
  lemma {:induction false} BackwardSucceeds(ls: seq<Layer>, width: nat, g: Matrix, math: Math)
    requires ReadyForBackward(ls, g.rows) && g.rows > 0
    requires Chains(ls, width) && g.cols == FinalWidth(ls, width)
    ensures Backward(ls, g, math).1.Ok?
    ensures Backward(ls, g, math).1.value.cols == width
    decreases |ls|
  {
    if ls != [] {
      var n := |ls| - 1;
      var front := ls[..n];
      ChainsSnoc(ls, width);
      var (l', d) := Bprop(ls[n], g, math);
      assert d.Ok? && d.value.cols == FinalWidth(front, width) by {
        if ls[n].FullyConnected? {
          assert BpropAccepts(ls[n], g);
        }
      }
      assert ReadyForBackward(front, g.rows) by {
        assert forall i :: 0 <= i < n ==> front[i] == ls[i];
      }
      BackwardSucceeds(front, width, d.value, math);
    }
  }

  /** A network ready to train: consistent layers, an output layer at the
      end and nowhere else, and widths that chain from `width`. */
  predicate WellFormed(ls: seq<Layer>, width: nat) {
    AllConsistent(ls) && |ls| > 0 && ls[|ls| - 1].IsOutput() &&
    (forall i :: 0 <= i < |ls| - 1 ==> !ls[i].IsOutput()) &&
    Chains(ls, width)
  }

  /** One `predict` followed by `backpropagate` on a well-formed network
      with at least one sample and targets shaped like the prediction
      raises nothing, leaves every parameter where it was, and leaves every
      parameterized layer holding gradients, so that `get_all_grads` lines
      up with `get_all_params`. */
  lemma ForwardBackward(ls: seq<Layer>, x: Matrix, y: Matrix, math: Math)
    requires WellFormed(ls, x.cols) && x.rows > 0
    requires y.rows == x.rows && y.cols == FinalWidth(ls, x.cols)
    ensures Forward(ls, x, math).1.Ok?
    ensures var (fls, out) := Forward(ls, x, math);
            var (bls, g) := Backpropagate(fls, y, out.value, math);
            g.Ok? && g.value.rows == x.rows && g.value.cols == x.cols &&
            AllSameWeights(ls, bls) && AllConsistent(bls) && GradVector(bls).Ok? &&
            ParamVector(bls) == ParamVector(ls) &&
            |GradVector(bls).value| == ParamCount(ls)
  {
    var (fls, out) := Forward(ls, x, math);
    var n := |ls| - 1;
    var front := fls[..n];
    ChainsSnoc(ls, x.cols);
    ChainsSnoc(fls, x.cols);
    SameWeightsShapes(ls, fls, x.cols);
    assert fls[n].IsOutput() by {
      assert SameWeights(ls[n], fls[n]);
    }
    var seed := InputGrad(fls[n], y, out.value);
    assert seed.Ok?;
    assert ReadyForBackward(front, x.rows) by {
      forall i | 0 <= i < n ensures !front[i].IsOutput() {
        assert SameWeights(ls[i], fls[i]);
      }
    }
    assert Chains(front, x.cols);
    assert seed.value.cols == FinalWidth(front, x.cols);
    BackwardSucceeds(front, x.cols, seed.value, math);
    var (bls, g) := Backpropagate(fls, y, out.value, math);
    SameWeightsTransitive(ls, fls, bls);
    SameWeightsParams(ls, bls);
    assert |GradVector(bls).value| == ParamCount(bls);
    SameWeightsCount(ls, bls);
  }

  lemma SameWeightsTransitive(a: seq<Layer>, b: seq<Layer>, c: seq<Layer>)
    requires AllSameWeights(a, b) && AllSameWeights(b, c)
    ensures AllSameWeights(a, c)
  {
  }

  /** Layer lists that differ only in caches have one parameter vector. */
  lemma {:induction false} SameWeightsParams(ls: seq<Layer>, ls': seq<Layer>)
    requires AllSameWeights(ls, ls')
    ensures ParamVector(ls') == ParamVector(ls)
  {
    if ls != [] {
      SameWeightsParams(ls[1..], ls'[1..]);
    }
  }

  lemma SameWeightsCount(ls: seq<Layer>, ls': seq<Layer>)
    requires AllSameWeights(ls, ls')
    ensures ParamCount(ls') == ParamCount(ls)
  {
    SameWeightsParams(ls, ls');
  }

  /** Layer lists that differ only in caches accept and produce the same
      widths. */
  lemma {:induction false} SameWeightsShapes(ls: seq<Layer>, ls': seq<Layer>, width: nat)
    requires AllSameWeights(ls, ls')
    ensures Chains(ls', width) == Chains(ls, width)
    ensures FinalWidth(ls', width) == FinalWidth(ls, width)
  {
    if ls != [] {
      SameWeightsShapes(ls[1..], ls'[1..], OutWidth(ls[0], width));
    }
  }

  /** A `predict` that raises leaves the layers from the one that raised on
      untouched, and every layer before it holds the cache of its `fprop`
      for the same number of rows. */
  lemma {:induction false} ForwardFailureKeepsPrefix(ls: seq<Layer>, x: Matrix, math: Math)
    requires AllConsistent(ls)
    requires Forward(ls, x, math).1.Err?
    ensures exists k :: 0 <= k < |ls| &&
              Forward(ls, x, math).0[k..] == ls[k..] &&
              AllPrimed(Forward(ls, x, math).0[..k], x.rows)
    decreases |ls|
  {
    var r := Forward(ls, x, math).0;
    var (l', y) := Fprop(ls[0], x, math);
    if y.Err? {
      assert r[0..] == ls[0..];
      assert AllPrimed(r[..0], x.rows);
    } else {
      var rest := Forward(ls[1..], y.value, math).0;
      ForwardFailureKeepsPrefix(ls[1..], y.value, math);
      var k :| 0 <= k < |ls| - 1 && rest[k..] == ls[1..][k..] && AllPrimed(rest[..k], y.value.rows);
      assert r == [l'] + rest;
      PrimedCons(l', rest, k, x.rows);
      assert r[k + 1..] == ls[k + 1..] by {
        assert r[k + 1..] == rest[k..] && ls[k + 1..] == ls[1..][k..];
      }
    }
  }

  /** A primed layer in front of a primed prefix. */
  lemma PrimedCons(l: Layer, rest: seq<Layer>, k: nat, n: nat)
    requires k <= |rest| && Primed(l, n) && AllPrimed(rest[..k], n)
    ensures AllPrimed(([l] + rest)[..k + 1], n)
  {
    assert ([l] + rest)[..k + 1] == [l] + rest[..k];
  }
}
