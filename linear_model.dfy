/** The arithmetic of the single-layer model: what is assumed of the squashing
    function, its derivative written in terms of its own output, the per-sample
    error signal, the dot product and the prediction. Values are `real`; the
    rounding of float64 is not modelled. */
module LinearModel {

  /** What the model assumes of `sigmoid` (1 / (1 + e^-x) in the program): every
      value lies strictly between 0 and 1. The exponential itself is not modelled,
      so every operation takes the squashing function as a parameter. */
  ghost predicate Squashing(sigmoid: real -> real) {
    forall x :: 0.0 < sigmoid(x) < 1.0
  }

  /** Sum of v1[i] * v2[i] over i < |v1|, accumulated from left to right. */
  function DotProduct(v1: seq<real>, v2: seq<real>): real
    requires |v1| <= |v2|
  {
    if |v1| == 0 then 0.0
    else DotProduct(v1[..|v1| - 1], v2) + v1[|v1| - 1] * v2[|v1| - 1]
  }

  /** `dot`: the loop that accumulates the products; v2 may be longer than v1. */
  method Dot(v1: seq<real>, v2: seq<real>) returns (r: real)
    requires |v1| <= |v2|
    ensures r == DotProduct(v1, v2)
  {
    r := 0.0;
    for i := 0 to |v1|
      invariant r == DotProduct(v1[..i], v2)
    {
      assert v1[..i + 1][..i] == v1[..i];
      r := r + v1[i] * v2[i];
    }
    assert v1[..|v1|] == v1;
  }

  /** Entries of v2 past the length of v1 play no part in the dot product. */
  lemma {:induction false} DotProductIgnoresTail(v1: seq<real>, v2: seq<real>)
    requires |v1| <= |v2|
    ensures DotProduct(v1, v2) == DotProduct(v1, v2[..|v1|])
  {
    if |v1| > 0 {
      var n := |v1| - 1;
      DotProductIgnoresTail(v1[..n], v2);
      DotProductIgnoresTail(v1[..n], v2[..|v1|]);
      assert v2[..|v1|][..n] == v2[..n];
    }
  }

  /** `dSigmoid`: the derivative of the sigmoid expressed through its output x.
      On an activation in (0, 1) it is positive and at most 1/4. */
  function DSigmoid(x: real): (r: real)
    ensures 0.0 < x < 1.0 ==> 0.0 < r <= 0.25
  {
    assert 0.25 - x * (1.0 - x) == (x - 0.5) * (x - 0.5);
    x * (1.0 - x)
  }

  /** The error signal of one sample: (expected output - activation) * dSigmoid(activation).
      A saturated activation (0 or 1) gives no signal, whatever the expected output. */
  function Delta(output: real, activation: real): (d: real)
    ensures activation == 0.0 || activation == 1.0 ==> d == 0.0
  {
    (output - activation) * DSigmoid(activation)
  }

  /** On an activation in (0, 1) the delta has the sign of the error
      `output - activation`, and is zero exactly when the two are equal. */
  lemma DeltaSign(output: real, activation: real)
    requires 0.0 < activation < 1.0
    ensures Delta(output, activation) > 0.0 <==> output > activation
    ensures Delta(output, activation) < 0.0 <==> output < activation
    ensures Delta(output, activation) == 0.0 <==> output == activation
  {
    var s := DSigmoid(activation);
    assert 0.0 < s;
    if output > activation {
      assert (output - activation) * s > 0.0;
    } else if output < activation {
      assert (output - activation) * s < 0.0;
    }
  }

  /** `predict`: the certainty score of one feature vector under the weights,
      in (0, 1) whenever the squashing function is. */
  function Predict(input: seq<real>, weights: seq<real>, sigmoid: real -> real): (p: real)
    requires |input| <= |weights|
    ensures Squashing(sigmoid) ==> 0.0 < p < 1.0
  {
    sigmoid(DotProduct(input, weights))
  }
}
