/** The flat parameter vector of Ex01/NeuralNetwork.py: `get_all_params`
    and `get_all_grads` lay out every parameterized layer's `W` (row-major)
    and then its `b`, in layer order; `set_all_params` reads such a vector
    back at a running offset.  These are the specification functions the
    `NeuralNetwork` methods are proved against. */
module ParamLayout {
  import opened Outcomes
  import opened Matrices
  import opened Layers

  predicate AllConsistent(ls: seq<Layer>) {
    forall i :: 0 <= i < |ls| ==> Consistent(ls[i])
  }

  /** Number of entries a layer contributes: `rows*cols` for `W` and
      `shape[0]` for `b`; layers without parameters contribute nothing. */
  function ParamSize(l: Layer): nat {
    if l.FullyConnected? then l.W.rows * l.W.cols + |l.b| else 0
  }

  function ParamCount(ls: seq<Layer>): nat {
    if ls == [] then 0 else ParamSize(ls[0]) + ParamCount(ls[1..])
  }

  /** One layer's share of `get_all_params`: `ravel(W)` then `b`. */
  function LayerParams(l: Layer): (v: Vector)
    ensures |v| == ParamSize(l)
  {
    if l.FullyConnected? then Ravel(l.W) + l.b else []
  }

  /** `get_all_params`: the layers' shares in layer order. */
  function ParamVector(ls: seq<Layer>): (v: Vector)
    ensures |v| == ParamCount(ls)
  {
    if ls == [] then [] else LayerParams(ls[0]) + ParamVector(ls[1..])
  }

  /** A layer has gradients to report (`grad_params` returns arrays rather
      than the initial `None`). */
  predicate HasGrads(l: Layer) {
    l.FullyConnected? ==> l.dW.Some? && l.db.Some?
  }

  predicate AllHaveGrads(ls: seq<Layer>) {
    forall i :: 0 <= i < |ls| ==> HasGrads(ls[i])
  }

  /** One layer's share of `get_all_grads`: `ravel(dW)` then `db`. */
  function LayerGrads(l: Layer): (r: Result<Vector>)
    ensures r.Ok? <==> HasGrads(l)
    ensures r.Err? ==> r.error == TypeMismatch
    ensures r.Ok? && Consistent(l) ==> |r.value| == ParamSize(l)
  {
    if !l.FullyConnected? then Ok([])
    else if l.dW.None? || l.db.None? then Err(TypeMismatch)
    else Ok(Ravel(l.dW.value) + l.db.value)
  }

  /** `get_all_grads`: the same layout as `get_all_params`, over the
      gradients.  A layer whose gradients were never computed makes the
      result an error. */
  function GradVector(ls: seq<Layer>): (r: Result<Vector>)
    ensures r.Ok? <==> AllHaveGrads(ls)
    ensures r.Err? ==> r.error == TypeMismatch
    ensures r.Ok? && AllConsistent(ls) ==> |r.value| == ParamCount(ls)
  {
    if ls == [] then Ok([])
    else
      var head := LayerGrads(ls[0]);
      var tail := GradVector(ls[1..]);
      assert AllHaveGrads(ls) <==> HasGrads(ls[0]) && AllHaveGrads(ls[1..]) by {
        assert forall i :: 1 <= i < |ls| ==> ls[i] == ls[1..][i - 1];
      }
      if head.Err? then Err(head.error)
      else if tail.Err? then Err(tail.error)
      else Ok(head.value + tail.value)
  }

  /** One step of `ParamVector` at layer `i`. */
  lemma ParamVectorStep(ls: seq<Layer>, i: nat)
    requires i < |ls|
    ensures ParamVector(ls[i..]) == LayerParams(ls[i]) + ParamVector(ls[i + 1..])
  {
    assert ls[i..][1..] == ls[i + 1..];
  }

  /** A gradient vector still to be appended to the part `v` already
      collected; the error stays the error. */
  function Prefixed(v: Vector, r: Result<Vector>): Result<Vector> {
    if r.Err? then Err(TypeMismatch) else Ok(v + r.value)
  }

  /** One step of `GradVector` at layer `i`, after the part `v`. */
  lemma GradVectorStep(ls: seq<Layer>, i: nat, v: Vector)
    requires i < |ls|
    ensures Prefixed(v, GradVector(ls[i..])) ==
              if LayerGrads(ls[i]).Err? then Err(TypeMismatch)
              else Prefixed(v + LayerGrads(ls[i]).value, GradVector(ls[i + 1..]))
  {
    assert ls[i..][1..] == ls[i + 1..];
    var tail := GradVector(ls[i + 1..]);
    if LayerGrads(ls[i]).Ok? && tail.Ok? {
      assert v + (LayerGrads(ls[i]).value + tail.value) == (v + LayerGrads(ls[i]).value) + tail.value;
    }
  }

  // ---------------------------------------------------------------------
  // Splitting the layer list
  // ---------------------------------------------------------------------

  lemma {:induction false} ParamVectorAppend(a: seq<Layer>, b: seq<Layer>)
    ensures ParamVector(a + b) == ParamVector(a) + ParamVector(b)
    ensures ParamCount(a + b) == ParamCount(a) + ParamCount(b)
  {
    if a == [] {
      assert a + b == b;
    } else {
      assert (a + b)[1..] == a[1..] + b;
      ParamVectorAppend(a[1..], b);
    }
  }

  lemma {:induction false} GradVectorAppend(a: seq<Layer>, b: seq<Layer>)
    requires AllHaveGrads(a) && AllHaveGrads(b)
    ensures AllHaveGrads(a + b)
    ensures GradVector(a + b).value == GradVector(a).value + GradVector(b).value
  {
    assert forall i :: 0 <= i < |a + b| ==> (a + b)[i] == if i < |a| then a[i] else b[i - |a|];
    if a == [] {
      assert a + b == b;
    } else {
      assert (a + b)[1..] == a[1..] + b;
      assert AllHaveGrads(a[1..]) by {
        assert forall i :: 0 <= i < |a| - 1 ==> a[1..][i] == a[i + 1];
      }
      GradVectorAppend(a[1..], b);
    }
  }

  /** The two vectors share one layout: layer `i`'s `W` and `b` occupy the
      same positions, `ParamCount(ls[..i])` onwards, in `get_all_params`
      as its `dW` and `db` do in `get_all_grads`. */
  lemma LayoutAgrees(ls: seq<Layer>, i: nat)
    requires AllConsistent(ls) && AllHaveGrads(ls) && i < |ls|
    ensures ParamCount(ls[..i]) + ParamSize(ls[i]) <= ParamCount(ls)
    ensures |GradVector(ls).value| == ParamCount(ls)
    ensures ParamVector(ls)[ParamCount(ls[..i])..ParamCount(ls[..i]) + ParamSize(ls[i])] == LayerParams(ls[i])
    ensures GradVector(ls).value[ParamCount(ls[..i])..ParamCount(ls[..i]) + ParamSize(ls[i])] == LayerGrads(ls[i]).value
  {
    var front, rest := ls[..i], ls[i + 1..];
    assert ls == front + ([ls[i]] + rest);
    assert ParamVector([ls[i]] + rest) == LayerParams(ls[i]) + ParamVector(rest) by {
      assert ([ls[i]] + rest)[1..] == rest;
    }
    ParamVectorAppend(front, [ls[i]] + rest);
    Middle(ParamVector(front), LayerParams(ls[i]), ParamVector(rest));
    GradsAt(ls, i);
    Middle(GradVector(front).value, LayerGrads(ls[i]).value, GradVector(rest).value);
  }

  /** The middle part of a three-part sequence, found by the lengths of
      the parts before it.  Kept apart from `LayoutAgrees`, where the same
      facts about layer vectors cost far more to prove. */
  lemma Middle<T>(a: seq<T>, b: seq<T>, c: seq<T>)
    ensures (a + b) + c == a + (b + c)
    ensures (a + (b + c))[|a|..|a| + |b|] == b
  {
  }

  /** The gradient half of `LayoutAgrees`. */
  lemma GradsAt(ls: seq<Layer>, i: nat)
    requires AllConsistent(ls) && AllHaveGrads(ls) && i < |ls|
    ensures GradVector(ls).value ==
              GradVector(ls[..i]).value + LayerGrads(ls[i]).value + GradVector(ls[i + 1..]).value
    ensures |GradVector(ls[..i]).value| == ParamCount(ls[..i])
  {
    var front, rest := ls[..i], ls[i + 1..];
    assert ls == front + ([ls[i]] + rest);
    assert AllHaveGrads(front) && AllConsistent(front) by {
      assert forall k :: 0 <= k < i ==> front[k] == ls[k];
    }
    assert AllHaveGrads(rest) by {
      assert forall k :: 0 <= k < |rest| ==> rest[k] == ls[i + 1 + k];
    }
    assert ([ls[i]] + rest)[1..] == rest;
    GradVectorAppend(front, [ls[i]] + rest);
    assert GradVector([ls[i]] + rest).value == LayerGrads(ls[i]).value + GradVector(rest).value;
  }

  // ---------------------------------------------------------------------
  // set_all_params
  // ---------------------------------------------------------------------

  /** Two states of a layer that agree in everything but the values of
      `W` and `b`, which keep their shapes. */
  predicate SameLayout(a: Layer, b: Layer) {
    if a.FullyConnected? then
      b.FullyConnected? && b.W.rows == a.W.rows && b.W.cols == a.W.cols && |b.b| == |a.b| &&
      b == a.(W := b.W, b := b.b)
    else b == a
  }

  /** One layer's part of `set_all_params`, reading from `v`, the part of
      the vector at and after the current offset.  `W` is overwritten from
      the next rows*cols entries and then `b` from the entries after
      those; when the vector runs out, the reshape raises ValueError and
      whatever was written before stays written. */
  function FillLayer(l: Layer, v: Vector): (r: (Layer, Outcome))
    ensures SameLayout(l, r.0)
    ensures r.1 == Pass <==> |v| >= ParamSize(l)
    ensures r.1.Fail? ==> r.1.error == ShapeMismatch
  {
    if !l.FullyConnected? then (l, Pass)
    else
      var size := l.W.rows * l.W.cols;
      if |v| < size then (l, Fail(ShapeMismatch))
      else
        var l' := l.(W := Reshape(v[..size], l.W.rows, l.W.cols));
        if |v| - size < |l.b| then (l', Fail(ShapeMismatch))
        else (l'.(b := v[size..size + |l.b|]), Pass)
  }

  /** `set_all_params`: the layers as they stand after the call, and
      whether it returned or raised. */
  function Unflatten(ls: seq<Layer>, v: Vector): (r: (seq<Layer>, Outcome))
    ensures |r.0| == |ls|
    ensures forall i :: 0 <= i < |ls| ==> SameLayout(ls[i], r.0[i])
  {
    if ls == [] then ([], Pass)
    else
      var (l', outcome) := FillLayer(ls[0], v);
      if outcome.Fail? then ([l'] + ls[1..], outcome)
      else
        var (rest, outcome') := Unflatten(ls[1..], v[ParamSize(ls[0])..]);
        ([l'] + rest, outcome')
  }

  /** One step of `Unflatten` at layer `i`, reading from `w`: a layer that
      fails ends it with the later layers untouched, otherwise the fill
      continues after the layer's share. */
  lemma UnflattenStep(ls: seq<Layer>, i: nat, w: Vector, done: seq<Layer>)
    requires i < |ls|
    ensures var fill := FillLayer(ls[i], w);
            if fill.1.Fail? then
              done + Unflatten(ls[i..], w).0 == (done + [fill.0]) + ls[i + 1..] &&
              Unflatten(ls[i..], w).1 == fill.1
            else
              var rest := Unflatten(ls[i + 1..], w[ParamSize(ls[i])..]);
              done + Unflatten(ls[i..], w).0 == (done + [fill.0]) + rest.0 &&
              Unflatten(ls[i..], w).1 == rest.1
  {
    assert ls[i..][1..] == ls[i + 1..];
    var fill := FillLayer(ls[i], w);
    if fill.1.Fail? {
      assert done + ([fill.0] + ls[i + 1..]) == (done + [fill.0]) + ls[i + 1..];
    } else {
      var rest := Unflatten(ls[i + 1..], w[ParamSize(ls[i])..]);
      assert done + ([fill.0] + rest.0) == (done + [fill.0]) + rest.0;
    }
  }

  /** `set_all_params` returns exactly when the vector holds at least as
      many entries as the layers have parameters; it never raises anything
      but the reshape's ValueError. */
  lemma {:induction false} UnflattenOutcome(ls: seq<Layer>, v: Vector)
    ensures Unflatten(ls, v).1 == Pass <==> |v| >= ParamCount(ls)
    ensures Unflatten(ls, v).1.Fail? ==> Unflatten(ls, v).1.error == ShapeMismatch
  {
    if ls != [] {
      var size := ParamSize(ls[0]);
      if |v| >= size {
        UnflattenOutcome(ls[1..], v[size..]);
      }
    }
  }

  /** Reading back what `set_all_params` wrote: `get_all_params` then
      returns the first `ParamCount` entries of the vector (all of it when
      its length is exactly the parameter count). */
  lemma {:induction false} ParamVectorOfUnflatten(ls: seq<Layer>, v: Vector)
    requires |v| >= ParamCount(ls)
    ensures ParamVector(Unflatten(ls, v).0) == v[..ParamCount(ls)]
  {
    if ls != [] {
      var l := ls[0];
      var size := ParamSize(l);
      var l' := FillLayer(l, v).0;
      ParamVectorOfUnflatten(ls[1..], v[size..]);
      var rest := Unflatten(ls[1..], v[size..]).0;
      assert Unflatten(ls, v).0 == [l'] + rest;
      assert ([l'] + rest)[1..] == rest;
      if l.FullyConnected? {
        var wsize := l.W.rows * l.W.cols;
        RavelReshape(v[..wsize], l.W.rows, l.W.cols);
        assert LayerParams(l') == v[..wsize] + v[wsize..size];
        assert v[..size] == v[..wsize] + v[wsize..size];
      }
      assert v[..ParamCount(ls)] == v[..size] + v[size..][..ParamCount(ls[1..])];
    }
  }

  /** `set_all_params(get_all_params())` leaves every layer as it was,
      whatever follows the parameters in the vector. */
  lemma {:induction false} UnflattenOwn(ls: seq<Layer>, tail: Vector)
    ensures Unflatten(ls, ParamVector(ls) + tail) == (ls, Pass)
  {
    if ls != [] {
      var v := ParamVector(ls) + tail;
      var rest := ParamVector(ls[1..]) + tail;
      ParamVectorCons(ls, tail);
      FillOwn(ls[0], rest);
      UnflattenCons(ls, v);
      UnflattenOwn(ls[1..], tail);
      assert [ls[0]] + ls[1..] == ls;
    }
  }

  /** The first layer's share opens the vector. */
  lemma ParamVectorCons(ls: seq<Layer>, tail: Vector)
    requires ls != []
    ensures ParamVector(ls) + tail == LayerParams(ls[0]) + (ParamVector(ls[1..]) + tail)
    ensures (ParamVector(ls) + tail)[ParamSize(ls[0])..] == ParamVector(ls[1..]) + tail
  {
    var a, b := LayerParams(ls[0]), ParamVector(ls[1..]);
    assert ParamVector(ls) == a + b;
    Regroup(a, b, tail);
  }

  /** Kept apart from `ParamVectorCons` for the same reason as `Middle`. */
  lemma Regroup<T>(a: seq<T>, b: seq<T>, c: seq<T>)
    ensures (a + b) + c == a + (b + c)
    ensures (a + (b + c))[|a|..] == b + c
  {
  }

  /** `Unflatten` past a first layer that is filled without raising and
      without change. */
  lemma UnflattenCons(ls: seq<Layer>, v: Vector)
    requires ls != [] && FillLayer(ls[0], v) == (ls[0], Pass)
    ensures var rest := Unflatten(ls[1..], v[ParamSize(ls[0])..]);
            Unflatten(ls, v) == ([ls[0]] + rest.0, rest.1)
  {
  }

  /** A layer filled from its own share of the vector is unchanged. */
  lemma FillOwn(l: Layer, rest: Vector)
    ensures FillLayer(l, LayerParams(l) + rest) == (l, Pass)
  {
    if l.FullyConnected? {
      var v := LayerParams(l) + rest;
      var wsize := l.W.rows * l.W.cols;
      assert v[..wsize] == Ravel(l.W);
      ReshapeRavel(l.W);
      assert v[wsize..wsize + |l.b|] == l.b;
    }
  }

  // ---------------------------------------------------------------------
  // param -= learning_rate * grad, layer by layer
  // ---------------------------------------------------------------------

  /** The in-place update `param -= learning_rate*grad` applied to `W` and
      `b` of one layer. */
  function DescendLayer(l: Layer, rate: real): (l': Layer)
    requires Consistent(l) && HasGrads(l)
    ensures SameLayout(l, l') && Consistent(l')
  {
    if !l.FullyConnected? then l
    else l.(W := SubScaled(l.W, rate, l.dW.value), b := VecSubScaled(l.b, rate, l.db.value))
  }

  function Descend(ls: seq<Layer>, rate: real): (ls': seq<Layer>)
    requires AllConsistent(ls) && AllHaveGrads(ls)
    ensures |ls'| == |ls|
    ensures forall i :: 0 <= i < |ls| ==> ls'[i] == DescendLayer(ls[i], rate)
  {
    seq(|ls|, i requires 0 <= i < |ls| => DescendLayer(ls[i], rate))
  }

  lemma DescendLayerFlat(l: Layer, rate: real)
    requires Consistent(l) && HasGrads(l)
    ensures LayerParams(DescendLayer(l, rate)) == VecSubScaled(LayerParams(l), rate, LayerGrads(l).value)
  {
    if l.FullyConnected? {
      RavelSubScaled(l.W, rate, l.dW.value);
      VecSubScaledAppend(Ravel(l.W), l.b, rate, Ravel(l.dW.value), l.db.value);
    }
  }

  /** Updating every tensor in place is the flat update
      `params - learning_rate * grads` on the `get_all_params` vector. */
  lemma {:induction false} DescendFlat(ls: seq<Layer>, rate: real)
    requires AllConsistent(ls) && AllHaveGrads(ls)
    ensures |GradVector(ls).value| == |ParamVector(ls)|
    ensures ParamVector(Descend(ls, rate)) == VecSubScaled(ParamVector(ls), rate, GradVector(ls).value)
  {
    if ls != [] {
      var tail := ls[1..];
      assert AllConsistent(tail) && AllHaveGrads(tail) by {
        assert forall i :: 0 <= i < |tail| ==> tail[i] == ls[i + 1];
      }
      DescendFlat(tail, rate);
      assert Descend(ls, rate)[1..] == Descend(tail, rate);
      DescendLayerFlat(ls[0], rate);
      VecSubScaledAppend(LayerParams(ls[0]), ParamVector(tail), rate,
                         LayerGrads(ls[0]).value, GradVector(tail).value);
    }
  }
}
