/** The weighted sum at the heart of the forward step. */
module Linear {
  import opened Parameters

  /** Reference definition: the same products summed from the right. */
  function Sum(x: Vector, w: Vector): real
    requires |x| <= |w|
    decreases |x|
  {
    if |x| == 0 then 0.0 else x[0] * w[0] + Sum(x[1..], w[1..])
  }

  /** Splitting off the last product of the right-hand sum. */
  lemma {:induction false} SumSnoc(x: Vector, w: Vector)
    requires 0 < |x| <= |w|
    ensures Sum(x, w) == Sum(x[..|x| - 1], w) + x[|x| - 1] * w[|x| - 1]
    decreases |x|
  {
    if |x| > 1 {
      SumSnoc(x[1..], w[1..]);
      assert x[1..][..|x| - 2] == x[..|x| - 1][1..];
    }
  }

  /** `x.map((n, c) => n * w[c]).reduce(plus, 0)`: the products summed from
      the left, starting at 0. Only the first |x| entries of `w` are read.
      The order of summation does not matter: the left fold is the reference
      sum taken from the right. */
  function Dot(x: Vector, w: Vector): (r: real)
    requires |x| <= |w|
    ensures r == Sum(x, w)
    decreases |x|
  {
    if |x| == 0 then 0.0
    else
      SumSnoc(x, w);
      Dot(x[..|x| - 1], w) + x[|x| - 1] * w[|x| - 1]
  }

  /** An all-zero input contributes nothing. */
  lemma {:induction false} DotZero(x: Vector, w: Vector)
    requires |x| <= |w|
    requires forall c :: 0 <= c < |x| ==> x[c] == 0.0
    ensures Dot(x, w) == 0.0
    decreases |x|
  {
    if |x| > 0 {
      DotZero(x[..|x| - 1], w);
    }
  }

  /** The sum is linear in the input: scaling the input scales it. */
  lemma {:induction false} DotScale(k: real, x: Vector, y: Vector, w: Vector)
    requires |x| == |y| <= |w|
    requires forall c :: 0 <= c < |x| ==> y[c] == k * x[c]
    ensures Dot(y, w) == k * Dot(x, w)
    decreases |x|
  {
    if |x| > 0 {
      var n := |x| - 1;
      DotScale(k, x[..n], y[..n], w);
      assert Dot(y, w) == Dot(y[..n], w) + y[n] * w[n];
      assert Dot(x, w) == Dot(x[..n], w) + x[n] * w[n];
      assert y[n] * w[n] == k * (x[n] * w[n]);
    }
  }

  /** Row r of `w`, or no row where the matrix has none; only read when the
      input is empty, where no entry of the row is used. */
  function RowOr(w: Matrix, r: nat): seq<real> {
    if r < |w| then w[r] else []
  }

  /** Every output row 0 .. n-1 of `w` is wide enough for `x`. */
  predicate Fits(x: Vector, w: Matrix, n: nat) {
    forall r :: 0 <= r < n ==> |x| <= |RowOr(w, r)|
  }

  /** The output of the forward step: row r is the weighted sum of `x` with
      row r of `w`, plus bias r. */
  function Affine(x: Vector, w: Matrix, b: Vector, n: nat): (y: Vector)
    requires Fits(x, w, n) && n <= |b|
    ensures |y| == n
    ensures forall r :: 0 <= r < n ==> y[r] == Dot(x, RowOr(w, r)) + b[r]
  {
    seq(n, r requires 0 <= r < n => Dot(x, RowOr(w, r)) + b[r])
  }
}
