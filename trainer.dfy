/** The training loop: a forward pass that writes one activation per sample into
    `hidden`, a backward pass that turns errors into deltas and adds to every
    weight the dot product of its feature column with the deltas (no learning
    rate), repeated a fixed number of times; and the initial weights. */
module Trainer {
  import opened LinearModel
  import opened Matrix

  /** Number of pixels in one sprite, and so the number of weights. */
  const BlockSize: nat := 64

  /** Expected outputs of the four training images: two ghosts, then two pacmen. */
  const TrainingLabels: seq<real> := [0.0, 0.0, 1.0, 1.0]

  /** The dataset shape a training round runs on without going out of range: at
      least one sample (the transpose reads row 0), an expected output per
      sample, and every feature vector exactly as long as the weight vector
      (no longer, for the forward pass; no shorter, for the backward pass). */
  ghost predicate WellShaped(inputs: seq<seq<real>>, outputs: seq<real>, n: nat) {
    |inputs| >= 1 && |inputs| <= |outputs| && Rectangular(inputs, n)
  }

  /** The activation of every sample under the given weights, in sample order;
      each lies in (0, 1) whenever the squashing function does. */
  function Activations(inputs: seq<seq<real>>, weights: seq<real>, sigmoid: real -> real): (h: seq<real>)
    requires forall i :: 0 <= i < |inputs| ==> |inputs[i]| <= |weights|
    ensures |h| == |inputs|
    ensures Squashing(sigmoid) ==> forall i :: 0 <= i < |h| ==> 0.0 < h[i] < 1.0
  {
    seq(|inputs|, i requires 0 <= i < |inputs| => Predict(inputs[i], weights, sigmoid))
  }

  /** The deltas of the first n samples, in sample order. */
  function Deltas(hidden: seq<real>, outputs: seq<real>, n: nat): (d: seq<real>)
    requires n <= |hidden| && n <= |outputs|
    ensures |d| == n
  {
    seq(n, i requires 0 <= i < n => Delta(outputs[i], hidden[i]))
  }

  /** Sum over the first n samples of feature j times that sample's delta. */
  function ColumnSum(inputs: seq<seq<real>>, deltas: seq<real>, j: nat, n: nat): real
    requires n <= |inputs| && n <= |deltas|
    requires forall i :: 0 <= i < n ==> j < |inputs[i]|
  {
    if n == 0 then 0.0
    else ColumnSum(inputs, deltas, j, n - 1) + inputs[n - 1][j] * deltas[n - 1]
  }

  /** The weights after one update: weight j gains the sum over all samples of
      feature j times the sample's delta, with no learning-rate factor. */
  function Updated(weights: seq<real>, inputs: seq<seq<real>>, deltas: seq<real>): (w: seq<real>)
    requires Transposable(inputs) && |weights| <= |inputs[0]| && |inputs| <= |deltas|
    ensures |w| == |weights|
  {
    seq(|weights|, j requires 0 <= j < |weights| => weights[j] + ColumnSum(inputs, deltas, j, |inputs|))
  }

  /** One training round: forward pass, then backward pass. */
  function Round(inputs: seq<seq<real>>, outputs: seq<real>, weights: seq<real>, sigmoid: real -> real): (w: seq<real>)
    requires WellShaped(inputs, outputs, |weights|)
    ensures |w| == |weights|
  {
    Updated(weights, inputs, Deltas(Activations(inputs, weights, sigmoid), outputs, |inputs|))
  }

  /** A step that maps every vector of length n to a vector of length n. */
  ghost predicate KeepsLength(step: seq<real> --> seq<real>, n: nat) {
    forall x: seq<real> :: |x| == n ==> step.requires(x) && |step(x)| == n
  }

  /** `trials` applications of step to w; none when trials <= 0. */
  ghost function Iterate(trials: int, step: seq<real> --> seq<real>, w: seq<real>): (r: seq<real>)
    requires trials > 0 ==> KeepsLength(step, |w|)
    ensures |r| == |w|
    decreases trials
  {
    if trials <= 0 then w else step(Iterate(trials - 1, step, w))
  }

  /** One training round over a fixed dataset, as a step on the weights. */
  ghost function RoundStep(inputs: seq<seq<real>>, outputs: seq<real>, sigmoid: real -> real): seq<real> --> seq<real>
  {
    w requires WellShaped(inputs, outputs, |w|) => Round(inputs, outputs, w, sigmoid)
  }

  /** The weights after `trials` rounds; no round at all when trials <= 0. */
  ghost function Trained(trials: int, inputs: seq<seq<real>>, outputs: seq<real>, weights: seq<real>,
                         sigmoid: real -> real): (w: seq<real>)
    requires trials > 0 ==> WellShaped(inputs, outputs, |weights|)
    ensures |w| == |weights|
  {
    Iterate(trials, RoundStep(inputs, outputs, sigmoid), weights)
  }

  /** Applying a steps and then b more is applying a + b steps. */
  lemma {:induction false} IterateCompose(a: nat, b: nat, step: seq<real> --> seq<real>, w: seq<real>)
    requires a + b > 0 ==> KeepsLength(step, |w|)
    ensures Iterate(a + b, step, w) == Iterate(b, step, Iterate(a, step, w))
  {
    if b > 0 {
      IterateCompose(a, b - 1, step, w);
    }
  }

  /** A fixed point of the step stays put however often the step is applied. */
  lemma {:induction false} IterateFixedPoint(trials: int, step: seq<real> --> seq<real>, w: seq<real>)
    requires KeepsLength(step, |w|) && step(w) == w
    ensures Iterate(trials, step, w) == w
    decreases trials
  {
    if trials > 0 {
      IterateFixedPoint(trials - 1, step, w);
    }
  }

  /** Training i + 1 rounds is one more round after training i rounds. */
  lemma TrainedNext(i: nat, inputs: seq<seq<real>>, outputs: seq<real>, weights: seq<real>, sigmoid: real -> real)
    requires WellShaped(inputs, outputs, |weights|)
    ensures Trained(i + 1, inputs, outputs, weights, sigmoid)
         == Round(inputs, outputs, Trained(i, inputs, outputs, weights, sigmoid), sigmoid)
  {
  }

  /** Training a rounds and then b more is training a + b rounds. */
  lemma TrainedCompose(a: nat, b: nat, inputs: seq<seq<real>>, outputs: seq<real>,
                       weights: seq<real>, sigmoid: real -> real)
    requires a + b > 0 ==> WellShaped(inputs, outputs, |weights|)
    ensures Trained(a + b, inputs, outputs, weights, sigmoid)
         == Trained(b, inputs, outputs, Trained(a, inputs, outputs, weights, sigmoid), sigmoid)
  {
    IterateCompose(a, b, RoundStep(inputs, outputs, sigmoid), weights);
  }

  /** Weights that a round leaves as they are stay so for any number of rounds. */
  lemma TrainedFixedPoint(trials: int, inputs: seq<seq<real>>, outputs: seq<real>,
                          weights: seq<real>, sigmoid: real -> real)
    requires WellShaped(inputs, outputs, |weights|)
    requires Round(inputs, outputs, weights, sigmoid) == weights
    ensures Trained(trials, inputs, outputs, weights, sigmoid) == weights
  {
    IterateFixedPoint(trials, RoundStep(inputs, outputs, sigmoid), weights);
  }

  /** `dot` of the transposed column j with the deltas is the column sum. */
  lemma {:induction false} ColumnDotProduct(inputs: seq<seq<real>>, deltas: seq<real>, j: nat, n: nat)
    requires Transposable(inputs) && j < |inputs[0]| && |inputs| <= |deltas| && n <= |inputs|
    ensures DotProduct(Transposed(inputs)[j][..n], deltas) == ColumnSum(inputs, deltas, j, n)
  {
    if n > 0 {
      var col := Transposed(inputs)[j];
      assert col[..n][..n - 1] == col[..n - 1];
      ColumnDotProduct(inputs, deltas, j, n - 1);
    }
  }

  /** `dot` of the whole transposed column j with the deltas is the sum over
      every sample of feature j times its delta. */
  lemma ColumnDot(inputs: seq<seq<real>>, deltas: seq<real>, j: nat)
    requires Transposable(inputs) && j < |inputs[0]| && |inputs| <= |deltas|
    ensures DotProduct(Transposed(inputs)[j], deltas) == ColumnSum(inputs, deltas, j, |inputs|)
  {
    assert Transposed(inputs)[j][..|inputs|] == Transposed(inputs)[j];
    ColumnDotProduct(inputs, deltas, j, |inputs|);
  }

  /** A column sum against deltas that are all zero is zero. */
  lemma {:induction false} ColumnSumZero(inputs: seq<seq<real>>, deltas: seq<real>, j: nat, n: nat)
    requires n <= |inputs| && n <= |deltas|
    requires forall i :: 0 <= i < n ==> j < |inputs[i]| && deltas[i] == 0.0
    ensures ColumnSum(inputs, deltas, j, n) == 0.0
  {
    if n > 0 {
      ColumnSumZero(inputs, deltas, j, n - 1);
    }
  }

  /** A column sum of non-negative features against non-negative deltas is
      non-negative. */
  lemma {:induction false} ColumnSumNonNegative(inputs: seq<seq<real>>, deltas: seq<real>, j: nat, n: nat)
    requires n <= |inputs| && n <= |deltas|
    requires forall i :: 0 <= i < n ==> j < |inputs[i]| && 0.0 <= inputs[i][j] && 0.0 <= deltas[i]
    ensures 0.0 <= ColumnSum(inputs, deltas, j, n)
  {
    if n > 0 {
      ColumnSumNonNegative(inputs, deltas, j, n - 1);
      var k := n - 1;
      assert 0.0 <= inputs[k][j] * deltas[k] by {
        assert 0.0 <= inputs[k][j] && 0.0 <= deltas[k];
      }
    }
  }

  /** A column sum of non-negative features against non-positive deltas is
      non-positive. */
  lemma {:induction false} ColumnSumNonPositive(inputs: seq<seq<real>>, deltas: seq<real>, j: nat, n: nat)
    requires n <= |inputs| && n <= |deltas|
    requires forall i :: 0 <= i < n ==> j < |inputs[i]| && 0.0 <= inputs[i][j] && deltas[i] <= 0.0
    ensures ColumnSum(inputs, deltas, j, n) <= 0.0
  {
    if n > 0 {
      ColumnSumNonPositive(inputs, deltas, j, n - 1);
      var k := n - 1;
      assert inputs[k][j] * deltas[k] <= 0.0 by {
        assert 0.0 <= inputs[k][j] && deltas[k] <= 0.0;
      }
    }
  }

  /** When every sample's activation equals its expected output, a round leaves
      the weights as they are. */
  lemma RoundFixedPoint(inputs: seq<seq<real>>, outputs: seq<real>, weights: seq<real>, sigmoid: real -> real)
    requires WellShaped(inputs, outputs, |weights|)
    requires forall i :: 0 <= i < |inputs| ==> outputs[i] == Predict(inputs[i], weights, sigmoid)
    ensures Round(inputs, outputs, weights, sigmoid) == weights
  {
    var deltas := Deltas(Activations(inputs, weights, sigmoid), outputs, |inputs|);
    forall j | 0 <= j < |weights|
      ensures Round(inputs, outputs, weights, sigmoid)[j] == weights[j]
    {
      ColumnSumZero(inputs, deltas, j, |inputs|);
    }
  }

  /** On non-negative features (such as 0/1 masks), when no sample's activation
      exceeds its expected output, a round does not decrease any weight. */
  lemma RoundRaises(inputs: seq<seq<real>>, outputs: seq<real>, weights: seq<real>, sigmoid: real -> real)
    requires WellShaped(inputs, outputs, |weights|) && Squashing(sigmoid)
    requires forall i, j :: 0 <= i < |inputs| && 0 <= j < |inputs[i]| ==> 0.0 <= inputs[i][j]
    requires forall i :: 0 <= i < |inputs| ==> Predict(inputs[i], weights, sigmoid) <= outputs[i]
    ensures forall j :: 0 <= j < |weights| ==> weights[j] <= Round(inputs, outputs, weights, sigmoid)[j]
  {
    var hidden := Activations(inputs, weights, sigmoid);
    var deltas := Deltas(hidden, outputs, |inputs|);
    forall i | 0 <= i < |inputs|
      ensures 0.0 <= deltas[i]
    {
      DeltaSign(outputs[i], hidden[i]);
    }
    forall j | 0 <= j < |weights|
      ensures weights[j] <= Round(inputs, outputs, weights, sigmoid)[j]
    {
      ColumnSumNonNegative(inputs, deltas, j, |inputs|);
    }
  }

  /** On non-negative features, when no sample's activation falls below its
      expected output, a round does not increase any weight. */
  lemma RoundLowers(inputs: seq<seq<real>>, outputs: seq<real>, weights: seq<real>, sigmoid: real -> real)
    requires WellShaped(inputs, outputs, |weights|) && Squashing(sigmoid)
    requires forall i, j :: 0 <= i < |inputs| && 0 <= j < |inputs[i]| ==> 0.0 <= inputs[i][j]
    requires forall i :: 0 <= i < |inputs| ==> outputs[i] <= Predict(inputs[i], weights, sigmoid)
    ensures forall j :: 0 <= j < |weights| ==> Round(inputs, outputs, weights, sigmoid)[j] <= weights[j]
  {
    var hidden := Activations(inputs, weights, sigmoid);
    var deltas := Deltas(hidden, outputs, |inputs|);
    forall i | 0 <= i < |inputs|
      ensures deltas[i] <= 0.0
    {
      DeltaSign(outputs[i], hidden[i]);
    }
    forall j | 0 <= j < |weights|
      ensures Round(inputs, outputs, weights, sigmoid)[j] <= weights[j]
    {
      ColumnSumNonPositive(inputs, deltas, j, |inputs|);
    }
  }

  /** `feedForward`: writes the activation of sample i into hidden[i] for every
      sample, and leaves the rest of `hidden` as it was. */
  method FeedForward(inputs: seq<seq<real>>, weights: seq<real>, hidden: array<real>, sigmoid: real -> real)
    requires |inputs| <= hidden.Length
    requires forall i :: 0 <= i < |inputs| ==> |inputs[i]| <= |weights|
    modifies hidden
    ensures hidden[..|inputs|] == Activations(inputs, weights, sigmoid)
    ensures hidden[|inputs|..] == old(hidden[|inputs|..])
  {
    for i := 0 to |inputs|
      invariant forall k :: 0 <= k < i ==> hidden[k] == Predict(inputs[k], weights, sigmoid)
      invariant hidden[|inputs|..] == old(hidden[|inputs|..])
    {
      var d := Dot(inputs[i], weights);
      hidden[i] := sigmoid(d);
    }
  }

  /** `backPropagation`: computes every delta first, then adds to each weight the
      dot product of its column of the transposed inputs with the deltas. Only
      the weights change. */
  method BackPropagation(inputs: seq<seq<real>>, hidden: seq<real>, outputs: seq<real>, weights: array<real>)
    requires |inputs| <= |hidden| && |inputs| <= |outputs|
    requires Transposable(inputs) && weights.Length <= |inputs[0]|
    modifies weights
    ensures weights[..] == Updated(old(weights[..]), inputs, Deltas(hidden, outputs, |inputs|))
  {
    var deltas := new real[|inputs|];
    for i := 0 to |inputs|
      modifies deltas
      invariant forall k :: 0 <= k < i ==> deltas[k] == Delta(outputs[k], hidden[k])
    {
      var err := outputs[i] - hidden[i];
      deltas[i] := err * DSigmoid(hidden[i]);
    }
    var ds := deltas[..];
    assert ds == Deltas(hidden, outputs, |inputs|);
    var m := TransposeMatrix(inputs);
    ghost var target := Updated(weights[..], inputs, ds);
    for i := 0 to weights.Length
      modifies weights
      invariant forall k :: 0 <= k < i ==> weights[k] == target[k]
      invariant forall k :: i <= k < weights.Length ==> weights[k] == old(weights[k])
    {
      var d := Dot(m[i], ds);
      ColumnDot(inputs, ds, i);
      weights[i] := weights[i] + d;
    }
    assert weights[..] == target;
  }

  /** The body of `train`'s loop: feedForward into `hidden`, then
      backPropagation on the weights; the weights become one round's result. */
  method TrainRound(inputs: seq<seq<real>>, outputs: seq<real>, weights: array<real>, hidden: array<real>,
                    sigmoid: real -> real)
    requires WellShaped(inputs, outputs, weights.Length) && hidden.Length == |inputs|
    requires weights != hidden
    modifies weights, hidden
    ensures weights[..] == Round(inputs, outputs, old(weights[..]), sigmoid)
    ensures hidden[..] == Activations(inputs, old(weights[..]), sigmoid)
  {
    var w := weights[..];
    FeedForward(inputs, w, hidden, sigmoid);
    var h := hidden[..];
    assert h == hidden[..|inputs|];
    assert weights[..] == w;
    BackPropagation(inputs, h, outputs, weights);
  }

  /** `train`: `trials` rounds of feedForward then backPropagation over the whole
      dataset, updating the weights in place; no round when trials <= 0. */
  method Train(trials: int, inputs: seq<seq<real>>, outputs: seq<real>, weights: array<real>,
               sigmoid: real -> real)
    requires trials > 0 ==> WellShaped(inputs, outputs, weights.Length)
    modifies weights
    ensures weights[..] == Trained(trials, inputs, outputs, old(weights[..]), sigmoid)
    ensures trials <= 0 ==> weights[..] == old(weights[..])
  {
    var hidden := new real[|inputs|];
    ghost var w0 := weights[..];
    var i := 0;
    while i < trials
      modifies weights, hidden
      invariant 0 <= i && (i <= trials || i == 0)
      invariant weights[..] == Trained(i, inputs, outputs, w0, sigmoid)
    {
      TrainedNext(i, inputs, outputs, w0, sigmoid);
      TrainRound(inputs, outputs, weights, hidden, sigmoid);
      i := i + 1;
    }
  }

  /** The part of `initializeDataset` after the images are decoded: `masks` are
      the masks of the four training images, each BlockSize long (the dimension
      check made when an image is opened); the weights start at 0.5 everywhere.
      The result is a dataset that `train` runs on. */
  method InitializeDataset(masks: seq<seq<real>>) returns (inputs: seq<seq<real>>, outputs: seq<real>, weights: array<real>)
    requires |masks| == |TrainingLabels| && Rectangular(masks, BlockSize)
    ensures fresh(weights)
    ensures inputs == masks && outputs == TrainingLabels
    ensures weights.Length == BlockSize
    ensures forall i :: 0 <= i < weights.Length ==> weights[i] == 0.5
    ensures WellShaped(inputs, outputs, weights.Length)
  {
    outputs := TrainingLabels;
    weights := new real[BlockSize];
    for i := 0 to weights.Length
      modifies weights
      invariant forall k :: 0 <= k < i ==> weights[k] == 0.5
    {
      weights[i] := 0.5;
    }
    inputs := masks;
  }
}
