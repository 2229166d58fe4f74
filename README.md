# Exact bookkeeping of a small feed-forward network trainer

`Ex01/NeuralNetwork.py` is a teaching implementation of a fully connected
neural network in numpy. The network is a list of layers:

- an input layer;
- fully connected layers, each with an optional sigmoid, tanh or relu activation;
- a linear or softmax output layer.

It is trained by one of four descent methods: plain gradient descent, mini-batch
stochastic gradient descent, gradient descent with momentum, and Rprop.

This project models the exact part of that program, that is, everything that is
not floating-point numerics:

- **Labels.** `one_hot` builds an indicator matrix from integer labels and `unhot`
  inverts it with argmax. `classification_error` is the fraction of mismatching
  predictions.
- **The flat parameter vector.** `get_all_params` and `get_all_grads` lay out each
  parameterized layer's `W` (row-major) and then its `b`, in layer order.
  `set_all_params` writes such a vector back at a running offset.
- **The layer pipeline.**
  - `predict` folds `fprop` over the layers.
  - `backpropagate` seeds with the output layer's `input_grad` and folds `bprop`
    backwards over the other layers.
  - Shapes and caches (`last_input`, the activation's `z`, `dW`, `db`) are tracked
    layer by layer.
- **The descent methods.**
  - `gd_epoch` and the batches of `sgd_epoch` apply `param -= learning_rate*grad`.
  - `gdm_epoch` applies the momentum update `v := -lr*g + 0.7*v`, then `p := p + v`.
  - `rprop` scales its steps by 1.2 or 0.5 by the sign of `grad*former_grad`, then
    moves each parameter by its step against the sign of its gradient.
- **`train`'s epoch loop**, which carries the Rprop and momentum state from epoch
  to epoch.

Arithmetic is exact over `real`. `exp` and `tanh` are parameters: a `Math` record
whose `exp` is any positive function. Every Python exception the code can raise
on these paths is an `Err` value of the `Error` datatype, and a method that raises
half-way leaves the layers as the source would.

The modules:

- `Outcomes` holds the errors and the `Result`/`Outcome` wrappers.
- `Matrices` models numpy arrays with an explicit shape, `ravel` and `reshape`.
- `Activations` holds the activation functions, the `Activation` object and `softmax`.
- `Labels` covers `one_hot`, `unhot` and the error rate.
- `Layers` holds the four layer kinds as one datatype.
- `ParamLayout` holds the flat vector and `set_all_params` as functions.
- `Pipeline` holds `predict` and `backpropagate` as folds.
- `UpdateRules` holds the Rprop and momentum rules and the batch arithmetic.
- `Training` holds one epoch of each descent method and the epoch loop, as functions.
- `Network` holds the `NeuralNetwork` class. It keeps its layer list in a field
  that its methods update. Each method is proved to produce exactly what the
  matching function of `Pipeline`, `ParamLayout` or `Training` describes.

## Model

| member | source | states |
|---|---|---|
| Activations.ParseActivation | Ex01/NeuralNetwork.py:103-115 | construction succeeds exactly for "sigmoid", "tanh" and "relu", binding the kind of that name; any other name is ValueError |
| Activations.ParseName | Ex01/NeuralNetwork.py:103-115 | each of the three kinds is obtained from its own name |
| Activations.Relu | Ex01/NeuralNetwork.py:66-67 | relu is non-negative, at least its input, and either the input or 0 |
| Activations.ReluD | Ex01/NeuralNetwork.py:69-72 | the relu derivative is 1 exactly where the input is positive and 0 exactly where it is not |
| Activations.ReluIsMaskedIdentity | Ex01/NeuralNetwork.py:66-72 | relu(x) is x times relu_d(x) for every x |
| Activations.ReluMask | Ex01/NeuralNetwork.py:69-72 | relu_d on an array keeps its shape and marks exactly the positive entries with 1, the others with 0 |
| Activations.ActForward | Ex01/NeuralNetwork.py:117-123 | `fprop` caches its input as `z`, keeps the kind, and returns the activation applied element-wise in the input's shape |
| Activations.ActBackward | Ex01/NeuralNetwork.py:125-127 | `bprop` succeeds exactly when `z` is cached and shaped like the gradient; AttributeError before any `fprop`; the result is the gradient times f' of `z`, element by element |
| Activations.RowMax | Ex01/NeuralNetwork.py:79 | the row maximum bounds every entry and is one of them |
| Activations.Normalised | Ex01/NeuralNetwork.py:81-82 | dividing positive entries by their sum gives positive entries that sum to 1 |
| Activations.SoftmaxRow | Ex01/NeuralNetwork.py:74-82 | a softmax row has the row's length, positive entries and sum 1, for any positive `exp` |
| Activations.Softmax | Ex01/NeuralNetwork.py:74-82 | softmax succeeds exactly when rows are non-empty (numpy's max raises otherwise), keeps the shape, and each row is positive and sums to 1 |
| Labels.OneHotOf | Ex01/NeuralNetwork.py:84-94 | the indicator matrix has one row per label and `k` columns |
| Labels.OneHot | Ex01/NeuralNetwork.py:84-94 | `one_hot` succeeds exactly when every label is below the number of distinct labels, and then row i has 1.0 at column labels[i] and 0.0 elsewhere; otherwise IndexError |
| Labels.OneHotDefinedIffContiguous | Ex01/NeuralNetwork.py:84-94 | the labels are below the number of distinct labels exactly when the distinct labels are 0, 1, ..., k-1 |
| Labels.Argmax | Ex01/NeuralNetwork.py:98 | argmax is a position holding the largest value, and the first such position |
| Labels.Unhot | Ex01/NeuralNetwork.py:96-98 | `unhot` succeeds exactly when rows are non-empty and gives one label per row, each below the width and each the argmax of its row |
| Labels.UnhotExample | Ex01/NeuralNetwork.py:96-98 | on a row that is not one-hot, such as `[0.2, 0.7, 0.1]`, `unhot` names the column of the largest entry |
| Labels.UnhotOneHot | Ex01/NeuralNetwork.py:84-98 | `unhot` inverts the indicator matrix whenever every label is below its width |
| Labels.UnhotOfOneHot | Ex01/NeuralNetwork.py:84-98 | `unhot(one_hot(labels)) == labels` for every non-empty label sequence that `one_hot` accepts |
| Labels.DocExample | Ex01/NeuralNetwork.py:85-88 | the doc-comment example: [0, 2, 1] has 3 classes, encodes to [[1,0,0],[0,0,1],[0,1,0]] and decodes back |
| Labels.Mismatches | Ex01/NeuralNetwork.py:394 | the count of `Y_pred != Y` is the number of positions where the two sequences differ |
| Labels.MismatchSetSnoc | Ex01/NeuralNetwork.py:394 | the last position joins the differing positions exactly when it differs, and was not among those of the front |
| Labels.MismatchesBounds | Ex01/NeuralNetwork.py:394-395 | the mismatch count is at most the length, and zero exactly when the sequences are equal |
| Labels.ErrorRate | Ex01/NeuralNetwork.py:394-395 | the mean of `Y_pred != Y` is defined exactly for equal non-zero lengths (ValueError for different lengths, NaN for none), lies in [0, 1], is 0 exactly when all match, and is the number of differing positions divided by the length |
| Labels.ErrorRateExample | Ex01/NeuralNetwork.py:394-395 | one wrong prediction out of two is an error rate of 0.5 |
| Labels.ClassificationError | Ex01/NeuralNetwork.py:389-395 | after the prediction, the error is defined exactly when the output has columns and one row per label, lies in [0, 1], is 0 exactly when `unhot` of the output is the labels, and is the number of rows whose argmax differs from the label divided by the number of labels |
| Layers.OutputSize | Ex01/NeuralNetwork.py:214-215 | a fully connected layer reports (batch, num_units) with num_units the width of `W`; the input layer reports its shape; output layers report (1,) |
| Layers.NewFullyConnected | Ex01/NeuralNetwork.py:195-212 | construction succeeds exactly when the previous layer's output size has a known second entry; `W` is (that entry, num_units), `b` has num_units entries, and no cache or gradient is present yet |
| Layers.Fprop | Ex01/NeuralNetwork.py:217-234 | a layer's `fprop` succeeds exactly when it accepts the input width, returns the batch's rows at the layer's output width, caches the input, keeps parameters and gradients, and passes input through for input and linear output layers |
| Layers.Bprop | Ex01/NeuralNetwork.py:237-257 | `bprop` of a fully connected layer succeeds exactly when its caches fit the gradient, stores `dW`/`db` shaped like `W`/`b` and returns a gradient as wide as the input; the input layer passes the gradient through; output layers raise NotImplementedError |
| Layers.InputGrad | Ex01/NeuralNetwork.py:296-298 | `input_grad` exists only on output layers and is `Y_pred - Y` element-wise, for equally shaped operands |
| ParamLayout.LayerParams | Ex01/NeuralNetwork.py:260-261 | a layer's share of the parameter vector has `rows*cols + len(b)` entries, none for a layer without parameters |
| ParamLayout.ParamVector | Ex01/NeuralNetwork.py:398-411 | the parameter vector's length is the sum of the parameterized layers' sizes |
| ParamLayout.LayerGrads | Ex01/NeuralNetwork.py:264-265 | a layer's share of the gradient vector exists exactly when its gradients were computed, and is as long as its parameter share |
| ParamLayout.GradVector | Ex01/NeuralNetwork.py:414-427 | the gradient vector exists exactly when every parameterized layer holds gradients, and is then as long as the parameter vector |
| ParamLayout.ParamVectorAppend | Ex01/NeuralNetwork.py:398-411 | the parameter vector of two layer lists is the concatenation of theirs |
| ParamLayout.GradVectorAppend | Ex01/NeuralNetwork.py:414-427 | the gradient vector of two layer lists is the concatenation of theirs |
| ParamLayout.LayoutAgrees | Ex01/NeuralNetwork.py:398-427 | layer i's `W` and `b` sit at the same offset in the parameter vector as its `dW` and `db` sit in the gradient vector |
| ParamLayout.FillLayer | Ex01/NeuralNetwork.py:434-443 | one layer's fill keeps its shapes and everything but `W` and `b`, and returns exactly when the vector holds its `rows*cols + len(b)` entries; otherwise the reshape's ValueError |
| ParamLayout.Unflatten | Ex01/NeuralNetwork.py:430-443 | `set_all_params` keeps the number of layers and, in every layer, the shapes and everything but `W` and `b` |
| ParamLayout.UnflattenOutcome | Ex01/NeuralNetwork.py:430-443 | `set_all_params` returns exactly when the vector is at least as long as the parameter count, and otherwise raises only ValueError |
| ParamLayout.ParamVectorOfUnflatten | Ex01/NeuralNetwork.py:398-443 | after `set_all_params(v)`, `get_all_params()` is the first parameter-count entries of `v`, all of it when the lengths agree |
| ParamLayout.UnflattenOwn | Ex01/NeuralNetwork.py:398-443 | `set_all_params(get_all_params())` returns and leaves every layer as it was, whatever follows in the vector |
| ParamLayout.FillOwn | Ex01/NeuralNetwork.py:434-443 | a layer filled from its own share of the vector is unchanged |
| ParamLayout.DescendLayer | Ex01/NeuralNetwork.py:505-508 | `param -= learning_rate*grad` on one layer keeps its shapes and consistency |
| ParamLayout.Descend | Ex01/NeuralNetwork.py:505-508 | the update applies to every layer, each independently |
| ParamLayout.DescendLayerFlat | Ex01/NeuralNetwork.py:505-508 | one layer's update is the flat update `params - lr*grads` on its share of the vector |
| ParamLayout.DescendFlat | Ex01/NeuralNetwork.py:505-508 | updating every tensor in place is the flat update `params - lr*grads` on the whole parameter vector |
| Matrices.Ravel | Ex01/NeuralNetwork.py:407 | `np.ravel` of an r x c array has r*c entries |
| Matrices.RavelAt | Ex01/NeuralNetwork.py:407 | element (i, j) sits at position i*cols + j of the raveled array |
| Matrices.Reshape | Ex01/NeuralNetwork.py:441-442 | `np.reshape(v, (r, c))` has shape (r, c) |
| Matrices.ReshapeRavel | Ex01/NeuralNetwork.py:441-442 | reshaping a raveled array to its own shape gives it back |
| Matrices.RavelReshape | Ex01/NeuralNetwork.py:441-442 | raveling a reshaped vector gives the vector back |
| Matrices.MatMul | Ex01/NeuralNetwork.py:222 | `np.dot` of (n, k) and (k, m) arrays has shape (n, m) |
| Matrices.Transpose | Ex01/NeuralNetwork.py:248 | `.T` swaps the shape |
| Matrices.AddRow | Ex01/NeuralNetwork.py:222 | adding the bias row keeps the shape |
| Matrices.Map | Ex01/NeuralNetwork.py:123 | an element-wise function keeps the shape and applies to each entry |
| Matrices.Hadamard | Ex01/NeuralNetwork.py:127 | the element-wise product keeps the shape and multiplies entry by entry |
| Matrices.SubScaled | Ex01/NeuralNetwork.py:298 | `a - s*b` keeps the shape, and each entry is the entry of `a` less `s` times the entry of `b` |
| Matrices.DivBy | Ex01/NeuralNetwork.py:246 | dividing by `n` keeps the shape |
| Matrices.ColumnMean | Ex01/NeuralNetwork.py:247 | `np.mean(axis=0)` has one entry per column |
| Matrices.VecSubScaled | Ex01/NeuralNetwork.py:495 | the flat update keeps the length, and each entry is `v[i] - s*w[i]` |
| Matrices.RavelSubScaled | Ex01/NeuralNetwork.py:495 | raveling commutes with the element-wise update `a - s*b` |
| Matrices.RowSlice | Ex01/NeuralNetwork.py:482-483 | `m[lo:hi]` keeps the width, clamps to the array, and holds rows lo, lo+1, ... |
| Pipeline.Forward | Ex01/NeuralNetwork.py:359-371 | `predict` succeeds exactly when the layer widths chain from the input's, gives the batch's rows at the final width, primes every layer's caches, and keeps parameters and gradients |
| Pipeline.ForwardFailureKeepsPrefix | Ex01/NeuralNetwork.py:359-371 | when `predict` raises, the layers from the raising one on are unchanged and every layer before it holds the caches of its `fprop` for the batch's rows |
| Pipeline.Backward | Ex01/NeuralNetwork.py:380-384 | the reversed `bprop` fold keeps parameters, cached inputs and activations, returns the batch's rows, and leaves every layer holding gradients when it succeeds |
| Pipeline.Backpropagate | Ex01/NeuralNetwork.py:374-386 | an empty network raises IndexError; a last layer without `input_grad` raises AttributeError; a success leaves every layer with gradients and keeps parameters |
| Pipeline.BackwardSucceeds | Ex01/NeuralNetwork.py:380-384 | after a forward pass over at least one sample, `bprop` through non-output layers succeeds for a gradient as wide as their output and returns one as wide as their input |
| Pipeline.ForwardBackward | Ex01/NeuralNetwork.py:359-386 | on a well-formed network, `predict` then `backpropagate` raises nothing, returns an input-shaped gradient, leaves parameters unchanged and gives a gradient vector as long as the parameter vector |
| Pipeline.SameWeightsParams | Ex01/NeuralNetwork.py:398-411 | the passes' caches do not affect `get_all_params` |
| UpdateRules.RpropSteps | Ex01/NeuralNetwork.py:459-463 | each step is multiplied by 1.2 where `grad*former_grad > 0`, by 0.5 where it is `< 0`, and unchanged where it is 0 |
| UpdateRules.RpropStepsPositive | Ex01/NeuralNetwork.py:459-463 | positive steps stay positive through the step update |
| UpdateRules.RpropFirstEpoch | Ex01/NeuralNetwork.py:459-463 | against the all-zero `last_grad` that `train` starts with, the steps are unchanged |
| UpdateRules.RpropParams | Ex01/NeuralNetwork.py:465-468 | the masked parameter update keeps the length; each parameter gains its step where the gradient is negative, loses it where positive, and stays where zero |
| UpdateRules.RpropAgainstGradient | Ex01/NeuralNetwork.py:465-468 | with positive steps, each parameter rises by its step where its gradient is negative, falls by its step where it is positive, and stays where it is zero |
| UpdateRules.MomentumStep | Ex01/NeuralNetwork.py:519 | the new velocity is as long as the gradient, and each entry is `-learning_rate*grad + 0.7*velocity` |
| UpdateRules.VecAdd | Ex01/NeuralNetwork.py:520 | `np.add` of two equally long vectors adds them entry by entry |
| UpdateRules.MomentumFromRest | Ex01/NeuralNetwork.py:519-520 | from the zero velocity `train` starts with, a momentum epoch moves the parameters as plain gradient descent does |
| UpdateRules.NumBatches | Ex01/NeuralNetwork.py:477-479 | `range(n_samples // batch_size)` raises ZeroDivisionError exactly for batch size 0, runs no batch for a negative batch size, and otherwise runs the largest count of whole batches that fit |
| UpdateRules.BatchesInside | Ex01/NeuralNetwork.py:479-483 | every batch ends within the data and starts where the previous one ended |
| UpdateRules.BatchCoverage | Ex01/NeuralNetwork.py:477-483 | the remainder is shorter than a batch, and a sample lies in some batch exactly when it lies before the remainder |
| Training.ForwardBackwardPass | Ex01/NeuralNetwork.py:499-503 | `predict` then `backpropagate` keeps the parameter vector, and on success leaves a gradient vector as long as it |
| Training.PassSucceeds | Ex01/NeuralNetwork.py:499-503 | on a well-formed network with at least one sample and matching targets, the pass raises nothing |
| Training.GdEpoch | Ex01/NeuralNetwork.py:498-508 | `gd_epoch` returns exactly when the pass does, and then moves the flat parameter vector by `-learning_rate` times the flat gradient vector; a raising pass changes no parameter |
| Training.SgdEpoch | Ex01/NeuralNetwork.py:476-495 | `sgd_epoch` raises ZeroDivisionError for batch size 0, does nothing for a negative one, and keeps the layer count |
| Training.SgdRun | Ex01/NeuralNetwork.py:479-495 | the first `b` batches of the loop keep consistency and the layer count |
| Training.SgdBatchDescends | Ex01/NeuralNetwork.py:479-495 | batch `b` is `gd_epoch` on rows `b*batch_size` to `b*batch_size + batch_size` of the state the earlier batches left: it returns exactly when its pass does, and then moves the flat parameter vector by `-learning_rate` times the flat gradient of that batch |
| Training.SgdRunStopsAtFailure | Ex01/NeuralNetwork.py:479-495 | once a batch has raised, no later batch runs |
| Training.SgdEpochIsRun | Ex01/NeuralNetwork.py:476-495 | for a positive batch size, `sgd_epoch` is the loop over its first `n_samples // batch_size` batches |
| Training.SgdBatchesFinishRun | Ex01/NeuralNetwork.py:479-495 | finishing the loop from any batch that the earlier ones reached gives the whole loop |
| Training.SgdOversizedBatch | Ex01/NeuralNetwork.py:477-479 | a batch size above the number of samples runs no batch and changes nothing |
| Training.SgdOneBatchIsGd | Ex01/NeuralNetwork.py:476-508 | a batch size equal to the number of samples makes `sgd_epoch` one `gd_epoch` over all of them |
| Training.SgdEpochKeepsCount | Ex01/NeuralNetwork.py:476-495 | the batches keep the number of parameters |
| Training.SgdIgnoresRemainder | Ex01/NeuralNetwork.py:476-483 | an epoch over all rows equals one over the first `n_batches*batch_size` rows: the trailing remainder plays no part |
| Training.GdmEpoch | Ex01/NeuralNetwork.py:511-522 | `gdm_epoch` returns exactly when the pass does and the velocity fits; the returned velocity is `-lr*grads + 0.7*v` and the parameter vector moves by it; a failure changes no parameter |
| Training.RpropEpoch | Ex01/NeuralNetwork.py:447-472 | `rprop` returns exactly when the pass does and both vectors fit; it returns the current gradients, the steps are the Rprop step update, and the parameter vector is the masked update by those steps; a failure changes neither steps nor parameters |
| Training.RpropEpochKeepsStepsPositive | Ex01/NeuralNetwork.py:459-463 | positive steps stay positive through an Rprop epoch, whether it returns or raises |
| Training.ParseDescent | Ex01/NeuralNetwork.py:552-562 | exactly "sgd", "gd", "rprop" and "gdm" select a descent; any other name is NotImplementedError |
| Training.Epoch | Ex01/NeuralNetwork.py:552-562 | one epoch is `sgd_epoch`, `gd_epoch`, `gdm_epoch` or `rprop` as the descent name selects: the layers and outcome are that function's, only gdm changes the velocity, and only rprop changes `last_grad` (on return) and the steps; it keeps the vectors' lengths and positive steps, and for all but sgd returns exactly when the pass does |
| Training.Epochs | Ex01/NeuralNetwork.py:551-562 | any number of epochs keeps consistency, the vectors' lengths and positive steps |
| Training.LastEpoch | Ex01/NeuralNetwork.py:551-562 | the n-th epoch keeps consistency, the vectors' lengths and positive steps |
| Training.EpochsNext | Ex01/NeuralNetwork.py:551-562 | after e epochs that returned, epoch e+1 is one epoch of the state they left |
| Training.EpochsStayFailed | Ex01/NeuralNetwork.py:551-562 | after an epoch raised, one more epoch count changes nothing |
| Training.EpochsStopAtFailure | Ex01/NeuralNetwork.py:551-562 | once an epoch has raised, no later epoch runs |
| Training.Start | Ex01/NeuralNetwork.py:544-548 | `train` starts with all-0.1 steps and zero `last_grad` and velocity, each as long as the parameter vector |
| Training.Train | Ex01/NeuralNetwork.py:525-562 | an out-of-range label in either label vector raises IndexError with nothing changed; an unknown descent raises with no layer changed |
| Training.TrainEpochRaisesOnlyInPass | Ex01/NeuralNetwork.py:544-562 | started as `train` starts them, the Rprop and momentum vectors always fit, so a gd, rprop or gdm epoch raises exactly when its forward/backward pass does |
| Network.NeuralNetwork.constructor | Ex01/NeuralNetwork.py:350-351 | the network holds the given layers, and is valid when they are consistent |
| Network.NeuralNetwork.Predict | Ex01/NeuralNetwork.py:359-371 | `predict` leaves the layers and returns exactly what `Pipeline.Forward` describes |
| Network.NeuralNetwork.Backpropagate | Ex01/NeuralNetwork.py:374-386 | `backpropagate` leaves the layers and returns exactly what `Pipeline.Backpropagate` describes |
| Network.NeuralNetwork.ClassificationError | Ex01/NeuralNetwork.py:389-395 | `classification_error` leaves the layers as `predict` does and returns the error rate of `unhot` of the prediction |
| Network.NeuralNetwork.GetAllParams | Ex01/NeuralNetwork.py:398-411 | the accumulator loop builds exactly the parameter vector |
| Network.NeuralNetwork.GetAllGrads | Ex01/NeuralNetwork.py:414-427 | the accumulator loop builds exactly the gradient vector, or the error |
| Network.NeuralNetwork.SetAllParams | Ex01/NeuralNetwork.py:430-443 | the offset loop leaves the layers, and returns, exactly what `ParamLayout.Unflatten` describes, and keeps every layer's shapes consistent |
| Network.NeuralNetwork.GdEpoch | Ex01/NeuralNetwork.py:498-508 | the method does exactly what `Training.GdEpoch` describes |
| Network.NeuralNetwork.ApplyGradients | Ex01/NeuralNetwork.py:505-508 | the update loop leaves every layer updated as `ParamLayout.Descend` describes, and keeps every layer's shapes consistent |
| Network.NeuralNetwork.SgdEpoch | Ex01/NeuralNetwork.py:476-495 | the batch loop does exactly what `Training.SgdEpoch` describes |
| Network.NeuralNetwork.GdmEpoch | Ex01/NeuralNetwork.py:511-522 | the method does exactly what `Training.GdmEpoch` describes |
| Network.NeuralNetwork.Rprop | Ex01/NeuralNetwork.py:447-472 | the method leaves the layers, the caller's step array and the result exactly as `Training.RpropEpoch` describes |
| Network.NeuralNetwork.RunEpoch | Ex01/NeuralNetwork.py:552-562 | after e epochs that returned, one pass of the loop body reaches the state and outcome of e+1 epochs |
| Network.NeuralNetwork.RunEpochs | Ex01/NeuralNetwork.py:551-562 | the epoch loop leaves the layers, and ends with the outcome, that `Training.Epochs` describes, stopping at the first epoch that raises |
| Network.NeuralNetwork.Train | Ex01/NeuralNetwork.py:525-562 | `train` does exactly what `Training.Train` describes |
| Network.ForwardLoop | Ex01/NeuralNetwork.py:364-368 | the `fprop` loop computes exactly the `Pipeline.Forward` fold, including the layers' state when a layer raises |
| Network.BackwardLoop | Ex01/NeuralNetwork.py:380-384 | the reversed `bprop` loop computes exactly the `Pipeline.Backward` fold |
| Network.UnflattenLoop | Ex01/NeuralNetwork.py:431-443 | the running-offset loop computes exactly `ParamLayout.Unflatten` |
| Network.FillParams | Ex01/NeuralNetwork.py:434-443 | one layer's fill at the offset is `ParamLayout.FillLayer`, and the offset advances by the layer's parameter count |
| Network.UpdateSteps | Ex01/NeuralNetwork.py:462-463 | the two masked writes into the caller's step array compute `UpdateRules.RpropSteps` |
| Network.MoveParams | Ex01/NeuralNetwork.py:466-468 | the two masked writes into the parameter copy compute `UpdateRules.RpropParams` |

## Left out

- MNIST download and loading (Ex01/NeuralNetwork.py:12-51) and the script at the end of the file: file and network I/O.
- Printing, the plot arrays and matplotlib (Ex01/NeuralNetwork.py:550, 568-586): presentation only.
- The per-epoch reporting in `train` (Ex01/NeuralNetwork.py:564-577) is not modelled. It calls `_loss` and `classification_error` on the training and validation data. Its `predict` calls overwrite the layers' caches, and any error it raises would end training. The model of `train` stops each epoch after the descent step.
- The loss values of `LinearOutput.loss` and `SoftmaxOutput.loss`, and `_loss` (Ex01/NeuralNetwork.py:300-302, 331-344, 354-356): floating-point `log`. The model has no loss values.
- `check_gradients`: a finite-difference float comparison.
- `sigmoid` and `tanh` values: `exp` and `tanh` are parameters, so only the shape facts and the relu facts are proved.
- Float64 rounding and overflow: arithmetic is exact over `real`. A NaN shows up only where the source divides by zero rows, as `Err(NotANumber)`.
- numpy broadcasting: operands of different shapes are always an error in the model. numpy would broadcast a length-1 `last_grad` or velocity in `rprop` and `gdm_epoch`.
- Layers.NewFullyConnected: the random initialisation (`np.random.normal`) is a parameter `draw`. The shared default `Activation('sigmoid')` instance of the constructor's signature is not modelled: each layer owns its activation, so two layers relying on the default do not share one `z` cache.
- Layers.Bprop: the source stores `dW` and `db` before `np.dot(output_grad, self.W.T)` raises for a gradient of the wrong width. The model checks the width first, so a raising `bprop` leaves `dW` and `db` as they were.
- The input layer's shape is a sequence, so the source's "tuple required" ValueError (Ex01/NeuralNetwork.py:177-178) cannot arise.
- Labels.OneHot: the source writes the classes in ascending order, and the model in any order. The cells written are disjoint, so the result and the error case are the same.
- Labels.OneHot: labels are natural numbers. Negative numpy labels, which index from the end, are not modelled.
- Network.NeuralNetwork.Backpropagate: the `upto` parameter is unused by the source and is not modelled.
- Network.NeuralNetwork.Train: only the one-hot path (`y_one_hot=True`) is modelled. The `test` method (Ex01/NeuralNetwork.py:589) is not modelled. `max_epochs` is a natural number; a negative value in the source runs no epoch or fails in `np.zeros`.
- Network.NeuralNetwork.Train: the descent name is checked before the loop rather than inside its first iteration. Nothing changes between those points, so the outcome and the layers are the same.
- Network.NeuralNetwork.GetAllGrads: reading gradients before any `bprop` gives `Err(TypeMismatch)`. The source instead builds an object array out of the `None`s and fails later.
