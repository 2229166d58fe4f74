/** The element-wise update rules that `rprop` and `gdm_epoch` apply to the
    flat parameter vector, and the mini-batch index arithmetic of
    `sgd_epoch` (Ex01/NeuralNetwork.py). */
module UpdateRules {
  import opened Outcomes
  import opened Matrices

  /** `nplus` and `nminus` in `rprop`. */
  const Increase: real := 1.2
  const Decrease: real := 0.5

  /** `mu` in `gdm_epoch`. */
  const Momentum: real := 0.7

  /** The value every Rprop step starts from in `train`. */
  const InitialStep: real := 0.1

  // ---------------------------------------------------------------------
  // Rprop
  // ---------------------------------------------------------------------

  /** The masked step update of `rprop`: grow where the gradient kept its
      sign, shrink where it flipped, keep where either is zero. */
  function RpropSteps(step: seq<real>, grad: seq<real>, prev: seq<real>): (s: seq<real>)
    requires |step| == |grad| == |prev|
    ensures |s| == |step|
    ensures forall i :: 0 <= i < |s| && grad[i] * prev[i] > 0.0 ==> s[i] == Increase * step[i]
    ensures forall i :: 0 <= i < |s| && grad[i] * prev[i] < 0.0 ==> s[i] == Decrease * step[i]
    ensures forall i :: 0 <= i < |s| && grad[i] * prev[i] == 0.0 ==> s[i] == step[i]
  {
    seq(|step|, i requires 0 <= i < |step| =>
      if grad[i] * prev[i] > 0.0 then Increase * step[i]
      else if grad[i] * prev[i] < 0.0 then Decrease * step[i]
      else step[i])
  }

  predicate AllPositive(v: seq<real>) {
    forall i :: 0 <= i < |v| ==> v[i] > 0.0
  }

  /** Both factors are positive, so positive steps stay positive. */
  lemma RpropStepsPositive(step: seq<real>, grad: seq<real>, prev: seq<real>)
    requires |step| == |grad| == |prev| && AllPositive(step)
    ensures AllPositive(RpropSteps(step, grad, prev))
  {
    var s := RpropSteps(step, grad, prev);
    forall i | 0 <= i < |s| ensures s[i] > 0.0 {
      assert Increase * step[i] > 0.0 && Decrease * step[i] > 0.0;
    }
  }

  function Zeros(n: nat): (z: seq<real>)
    ensures |z| == n && forall i :: 0 <= i < n ==> z[i] == 0.0
  {
    seq(n, i => 0.0)
  }

  /** With the all-zero `last_grad` that `train` starts from, the first
      epoch leaves the steps as they were. */
  lemma RpropFirstEpoch(step: seq<real>, grad: seq<real>)
    requires |step| == |grad|
    ensures RpropSteps(step, grad, Zeros(|step|)) == step
  {
  }

  /** The masked parameter update of `rprop`: up by the step where the
      gradient is negative, down by it where the gradient is positive. */
  function RpropParams(params: seq<real>, grad: seq<real>, step: seq<real>): (p: seq<real>)
    requires |params| == |grad| == |step|
    ensures |p| == |params|
    ensures forall i :: 0 <= i < |params| ==>
              p[i] == (if grad[i] < 0.0 then params[i] + step[i]
                       else if grad[i] > 0.0 then params[i] - step[i]
                       else params[i])
  {
    seq(|params|, i requires 0 <= i < |params| =>
      if grad[i] < 0.0 then params[i] + step[i]
      else if grad[i] > 0.0 then params[i] - step[i]
      else params[i])
  }

  /** With positive steps, Rprop moves every parameter against the sign of
      its gradient by exactly its step, and leaves it alone where the
      gradient is zero. */
  lemma RpropAgainstGradient(params: seq<real>, grad: seq<real>, step: seq<real>)
    requires |params| == |grad| == |step| && AllPositive(step)
    ensures var p := RpropParams(params, grad, step);
            forall i :: 0 <= i < |params| ==>
              (grad[i] > 0.0 ==> p[i] < params[i] && params[i] - p[i] == step[i]) &&
              (grad[i] < 0.0 ==> p[i] > params[i] && p[i] - params[i] == step[i]) &&
              (grad[i] == 0.0 ==> p[i] == params[i])
  {
  }

  // ---------------------------------------------------------------------
  // Momentum
  // ---------------------------------------------------------------------

  /** `step = -learning_rate*grads + mu*step` */
  function MomentumStep(velocity: seq<real>, grad: seq<real>, rate: real): (v: seq<real>)
    requires |velocity| == |grad|
    ensures |v| == |grad|
    ensures forall i :: 0 <= i < |grad| ==> v[i] == -rate * grad[i] + Momentum * velocity[i]
  {
    seq(|grad|, i requires 0 <= i < |grad| => -rate * grad[i] + Momentum * velocity[i])
  }

  /** `np.add(params, step)` */
  function VecAdd(a: seq<real>, b: seq<real>): (c: seq<real>)
    requires |a| == |b|
    ensures |c| == |a| && forall i :: 0 <= i < |a| ==> c[i] == a[i] + b[i]
  {
    seq(|a|, i requires 0 <= i < |a| => a[i] + b[i])
  }

  /** From rest (the zero velocity `train` starts with) a momentum epoch
      is a plain gradient-descent epoch. */
  lemma MomentumFromRest(params: seq<real>, grad: seq<real>, rate: real)
    requires |params| == |grad|
    ensures VecAdd(params, MomentumStep(Zeros(|grad|), grad, rate)) == VecSubScaled(params, rate, grad)
  {
  }

  // ---------------------------------------------------------------------
  // Mini-batches
  // ---------------------------------------------------------------------

  /** How many times `for b in range(n_samples // batch_size)` runs:
      ZeroDivisionError for a zero batch size, no batch at all for a
      negative one (the floor quotient is then not positive). */
  function NumBatches(samples: nat, batchSize: int): (r: Result<nat>)
    ensures r.Err? <==> batchSize == 0
    ensures r.Err? ==> r.error == ZeroDivision
    ensures batchSize < 0 ==> r == Ok(0)
    ensures batchSize > 0 ==> r.Ok? && r.value * batchSize <= samples < (r.value + 1) * batchSize
  {
    if batchSize == 0 then Err(ZeroDivision)
    else if batchSize < 0 then Ok(0)
    else Ok(samples / batchSize)
  }

  /** Batch `b` is the rows `[b*batch_size, b*batch_size + batch_size)`. */
  function BatchBegin(b: nat, batchSize: nat): nat { b * batchSize }
  function BatchEnd(b: nat, batchSize: nat): nat { b * batchSize + batchSize }

  /** Every batch lies inside the data, and each starts where the previous
      one ended. */
  lemma BatchesInside(samples: nat, batchSize: nat, b: nat)
    requires batchSize > 0 && b < NumBatches(samples, batchSize).value
    ensures BatchEnd(b, batchSize) <= samples
    ensures b > 0 ==> BatchBegin(b, batchSize) == BatchEnd(b - 1, batchSize)
  {
    var nb := NumBatches(samples, batchSize).value;
    assert (b + 1) * batchSize <= nb * batchSize by {
      MultiplyMonotone(b + 1, nb, batchSize);
    }
  }

  lemma MultiplyMonotone(a: nat, b: nat, c: nat)
    requires a <= b
    ensures a * c <= b * c
  {
  }

  /** A sample is visited exactly when it lies before the trailing
      remainder of fewer than `batch_size` samples, and then by the batch
      its index divided by `batch_size` names. */
  lemma BatchCoverage(samples: nat, batchSize: nat, i: nat)
    requires batchSize > 0 && i < samples
    ensures var nb := NumBatches(samples, batchSize).value;
            samples - nb * batchSize < batchSize &&
            (i < nb * batchSize <==> exists b :: 0 <= b < nb && BatchBegin(b, batchSize) <= i < BatchEnd(b, batchSize))
  {
    var nb := NumBatches(samples, batchSize).value;
    if i < nb * batchSize {
      var b := i / batchSize;
      assert BatchBegin(b, batchSize) <= i < BatchEnd(b, batchSize);
      assert b < nb by {
        if b >= nb {
          MultiplyMonotone(nb, b, batchSize);
        }
      }
    } else {
      forall b | 0 <= b < nb
        ensures !(BatchBegin(b, batchSize) <= i < BatchEnd(b, batchSize))
      {
        MultiplyMonotone(b + 1, nb, batchSize);
      }
    }
  }
}
