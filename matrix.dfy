/** `transposeMatrix`: turning the samples-by-features matrix into a
    features-by-samples one, so that each weight has its own column of feature
    values. */
module Matrix {

  /** The shape `transposeMatrix` reads without going out of range: at least one
      row, since the column count is taken from row 0, and every row at least as
      long as row 0. Longer rows are cut to row 0's length. */
  ghost predicate Transposable(m: seq<seq<real>>) {
    |m| >= 1 && forall r :: 0 <= r < |m| ==> |m[0]| <= |m[r]|
  }

  /** Every row of m has exactly `cols` entries. */
  ghost predicate Rectangular(m: seq<seq<real>>, cols: nat) {
    forall r :: 0 <= r < |m| ==> |m[r]| == cols
  }

  /** The transpose of the first |m[0]| columns of m: one row per column of m,
      each as long as m has rows, with entry [c][r] taken from m[r][c]. */
  function Transposed(m: seq<seq<real>>): (t: seq<seq<real>>)
    requires Transposable(m)
    ensures |t| == |m[0]| && Rectangular(t, |m|)
    ensures forall c, r :: 0 <= c < |t| && 0 <= r < |m| ==> t[c][r] == m[r][c]
  {
    seq(|m[0]|, c requires 0 <= c < |m[0]| => seq(|m|, r requires 0 <= r < |m| => m[r][c]))
  }

  /** `transposeMatrix`: fills a fresh row per column, entry by entry. */
  method TransposeMatrix(input: seq<seq<real>>) returns (dest: seq<seq<real>>)
    requires Transposable(input)
    ensures dest == Transposed(input)
  {
    var numColumns := |input[0]|;
    var numRows := |input|;
    var d := new seq<real>[numColumns];
    for c := 0 to numColumns
      modifies d
      invariant forall k :: 0 <= k < c ==> d[k] == Transposed(input)[k]
    {
      var row := new real[numRows];
      for r := 0 to numRows
        modifies row
        invariant forall k :: 0 <= k < r ==> row[k] == input[k][c]
      {
        row[r] := input[r][c];
      }
      d[c] := row[..];
    }
    dest := d[..];
  }

  /** Transposing a non-empty rectangular matrix twice gives the matrix back. */
  lemma TransposeTwice(m: seq<seq<real>>)
    requires |m| >= 1 && |m[0]| >= 1 && Rectangular(m, |m[0]|)
    ensures Transposable(Transposed(m)) && Transposed(Transposed(m)) == m
  {
    var t := Transposed(m);
    assert Transposable(t);
    var tt := Transposed(t);
    assert |tt| == |m|;
    forall r | 0 <= r < |m|
      ensures tt[r] == m[r]
    {
      assert |tt[r]| == |m[r]|;
      forall c | 0 <= c < |m[r]|
        ensures tt[r][c] == m[r][c]
      {
        assert tt[r][c] == t[c][r];
      }
    }
  }
}
