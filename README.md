# gosee perceptron, modelled in Dafny

gosee tells pacman sprites from ghost sprites with a one-layer perceptron. A
64-pixel PNG sprite becomes a 64-entry 0/1 mask: `createMask` gives 1 for every
non-black pixel outside row 0 and column 0. Four labelled masks (two ghosts
labelled 0, two pacmen labelled 1) train a 64-entry weight vector that starts at 0.5 everywhere.
Each training round has two passes:

- `feedForward` stores sigmoid(dot(mask, weights)) for every sample in `hidden`.
- `backPropagation` computes every sample's delta, (expected - activation) *
  dSigmoid(activation). It then adds to weight j the dot product of column j of
  the transposed inputs with the deltas. There is no learning-rate factor.

`train` repeats this `trials` times, and `predict` scores a new mask.

The model has four modules:

- `LinearModel` (`linear_model.dfy`): the squashing-function assumption,
  `dot`, `dSigmoid`, the per-sample delta and `predict`.
- `Matrix` (`matrix.dfy`): `transposeMatrix`.
- `Mask` (`mask.dfy`): `createMask`, with the pixel colour test passed in as
  `nonBlack(x, y)`.
- `Trainer` (`trainer.dfy`): `feedForward`, `backPropagation`, `train` and
  the weight initialisation of `initializeDataset`.

Values are `real`. A slice that the program only reads is a `seq`. A slice it
writes in place (`*hidden`, `*weights`, and the buffers filled by
`createMask`, `transposeMatrix` and `backPropagation`) is an `array`. Each
method is proved against a specification function:

| method | specification function |
|---|---|
| `Dot` | `DotProduct` |
| `TransposeMatrix` | `Transposed` |
| `CreateMask` | `Mask` |
| `FeedForward` | `Activations` |
| `BackPropagation` | `Updated` of `Deltas` |
| `Train` | `Trained`, which is `trials` applications of `Round` |

The lemmas then state what these functions promise.

Preconditions are the conditions under which the Go code does not panic:

- `dot` indexes `v2` up to `len(v1)`.
- `transposeMatrix` reads `input[0]`, and then every row up to `len(input[0])`.
- `backPropagation` indexes the transpose for every weight.

The scan starts at x = 1 and y = 1, so row 0 and column 0 of every mask stay 0
whatever the pixels are (`Mask.MaskBorder`).

## Model

| member | source | states |
|---|---|---|
| LinearModel.Dot | main.go:142-148 | the loop returns the sum of v1[i] * v2[i] over every index of v1 (`DotProduct`); it requires v2 to be at least as long as v1 |
| LinearModel.DotProductIgnoresTail | main.go:142-148 | entries of v2 beyond the length of v1 do not affect the dot product |
| LinearModel.DSigmoid | main.go:138-140 | for an activation strictly between 0 and 1, x * (1 - x) is positive and at most 1/4 |
| LinearModel.Delta | main.go:167-168 | the error signal (expected - activation) * dSigmoid(activation); it is 0 at a saturated activation of 0 or 1, whatever the expected output |
| LinearModel.DeltaSign | main.go:166-169 | for an activation in (0, 1), the delta is positive, negative or zero exactly when the expected output is above, below or equal to the activation |
| LinearModel.Predict | main.go:190-192 | the prediction is sigmoid of the dot product, strictly between 0 and 1 whenever sigmoid is |
| Matrix.Transposed | main.go:177-188 | the transpose has one row per column of row 0, each as long as the input has rows, and entry [c][r] is input[r][c] |
| Matrix.TransposeMatrix | main.go:177-188 | filling each destination row entry by entry yields exactly `Transposed(input)`; it requires a row 0 and no row shorter than row 0 |
| Matrix.TransposeTwice | main.go:177-188 | transposing a non-empty rectangular matrix twice gives back the original matrix |
| Mask.Mask | main.go:82-98 | the mask has w * h entries, each 0 or 1 |
| Mask.MaskAt | main.go:87-95 | entry y * w + x is 1 exactly when x >= 1, y >= 1 and the pixel is non-black, and 0 otherwise |
| Mask.MaskBorder | main.go:88-89 | every entry in row 0 and in column 0 is 0, whatever the image |
| Mask.CreateMask | main.go:82-98 | the zero-filled vector after the row-order scan is exactly `Mask(w, h, nonBlack)` |
| Trainer.Activations | main.go:158-162 | one activation per sample, each strictly between 0 and 1 whenever sigmoid is |
| Trainer.FeedForward | main.go:158-162 | hidden[i] becomes predict(inputs[i], weights) for every sample; the entries of `hidden` past the last sample are unchanged; only `hidden` is modified |
| Trainer.Deltas | main.go:165-169 | one delta per sample |
| Trainer.Updated | main.go:171-174 | the update keeps the number of weights |
| Trainer.ColumnDotProduct | main.go:171-173 | `dot` of a prefix of transposed column j with the deltas equals the sum of inputs[i][j] * deltas[i] over that prefix of samples |
| Trainer.ColumnDot | main.go:173 | `dot` of the whole transposed column j with the deltas equals the sum over every sample of inputs[i][j] * deltas[i] |
| Trainer.ColumnSumZero | main.go:172-174 | a weight's increment is 0 when every delta is 0 |
| Trainer.ColumnSumNonNegative | main.go:172-174 | a weight's increment is at least 0 when features and deltas are non-negative |
| Trainer.ColumnSumNonPositive | main.go:172-174 | a weight's increment is at most 0 when features are non-negative and deltas non-positive |
| Trainer.BackPropagation | main.go:164-175 | weight j becomes its old value plus the sum over all samples of inputs[i][j] * delta[i], with no learning rate; only the weights change; it requires at least one sample, enough activations and outputs, and no more weights than row 0 has features |
| Trainer.Round | main.go:153-154 | one round keeps the number of weights |
| Trainer.RoundFixedPoint | main.go:153-154 | when every sample's activation equals its expected output, a round leaves the weights unchanged |
| Trainer.RoundRaises | main.go:153-154 | with non-negative features, when no activation exceeds its expected output, no weight decreases |
| Trainer.RoundLowers | main.go:153-154 | with non-negative features, when no activation is below its expected output, no weight increases |
| Trainer.TrainRound | main.go:153-154 | feedForward into `hidden` followed by backPropagation turns the weights into exactly one `Round` of them, and leaves in `hidden` the activations under the old weights |
| Trainer.Train | main.go:150-156 | after the call the weights are `trials` rounds applied to the initial weights; with trials <= 0 they are unchanged |
| Trainer.Trained | main.go:150-156 | training keeps the number of weights |
| Trainer.IterateCompose | main.go:152-155 | a steps followed by b steps equals a + b steps |
| Trainer.IterateFixedPoint | main.go:152-155 | a fixed point of the step is left unchanged by any number of steps |
| Trainer.TrainedNext | main.go:152-155 | i + 1 rounds equal one round applied after i rounds |
| Trainer.TrainedCompose | main.go:150-156 | training for a rounds and then b more equals training for a + b rounds |
| Trainer.TrainedFixedPoint | main.go:150-156 | weights left unchanged by one round stay unchanged for any number of rounds |
| Trainer.InitializeDataset | main.go:100-132 | the dataset has the four masks with labels 0, 0, 1, 1 and 64 fresh weights that all equal 0.5; that dataset meets `train`'s precondition |

## Left out

- The sigmoid function is not modelled. The code computes 1 / (1 + e^-x)
  with `math.Exp`. The model takes `sigmoid` as a parameter and assumes only
  that it lies strictly between 0 and 1 (`Squashing`). Facts that need its
  shape are not stated, for example sigmoid(0) = 0.5 or that it is increasing.
- Float64 arithmetic is modelled as exact `real` arithmetic. Rounding, overflow
  and NaN are not captured.
- `openImage` is not modelled: file opening, PNG decoding and their error
  results are I/O.
- The 64-pixel dimension check in `openImage` becomes the precondition of
  `InitializeDataset`. That precondition requires four masks of 64 entries.
- InitializeDataset: the loop in `initializeDataset` that opens the four
  images and returns early on a load error is not modelled. Image loading is
  I/O, so the method starts from the decoded masks.
- `img.At(x, y).RGBA()` and the `r != 0 || g != 0 || b != 0` test are
  abstracted as the parameter `nonBlack(x, y)`. Image bounds whose minimum is
  not (0, 0) are not modelled.
- Go's `int` is modelled as unbounded. Overflow of `w * h` or `y * w + x`
  cannot happen on 64-pixel sprites and is not modelled.
- `main` is not modelled: printing the predictions of the two test images and
  the 0.5 threshold that turns a score into a class.
- Convergence of the 1500-round training run toward correct predictions is not
  proved. It depends on the exponential, which is not modelled. What is proved
  is the direction of each weight's change in one round (`RoundRaises`,
  `RoundLowers`) and that a perfect fit is a fixed point (`TrainedFixedPoint`).
- Nested slices are values. `transposeMatrix` returns fresh rows, and aliasing
  between Go slices that share a backing array is not modelled.
- `feedForward` receives `*weights` as a snapshot of the weights. This is
  exact, because it does not write them.
