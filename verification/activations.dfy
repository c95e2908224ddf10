/** The activation catalog: pairs of a source function and its derivative.
    Only the algebraic entries are modelled; `sinc` is modelled at its
    explicit zero branch, with the sine and cosine it needs elsewhere
    supplied by the caller. */
module Activations {

  /** `new Activation(source, derivative)`: the pair, stored as given. */
  datatype Activation = Activation(source: real -> real, derivative: real -> real)

  /** `Math.abs`. */
  function Abs(x: real): (a: real)
    ensures a >= 0.0 && (a == x || a == -x)
  {
    if x < 0.0 then -x else x
  }

  // ---------------------------------------------------------------------
  // identity

  function IdentitySource(x: real): real { x }

  function IdentityDerivative(x: real): real { 1.0 }

  const identity := Activation(IdentitySource, IdentityDerivative)

  /** The identity is its own slope: every difference quotient is the
      derivative. */
  lemma IdentityPair(x: real, y: real)
    ensures identity.source(x) == x && identity.derivative(x) == 1.0
    ensures identity.source(y) - identity.source(x) == identity.derivative(x) * (y - x)
  {
  }

  // ---------------------------------------------------------------------
  // relu

  /** `Math.max(0, x)`. */
  function ReluSource(x: real): (y: real)
    ensures y >= 0.0 && y >= x
    ensures y == 0.0 || y == x
  {
    if 0.0 >= x then 0.0 else x
  }

  /** The sub-gradient: 0 up to and including zero, 1 above it. */
  function ReluDerivative(x: real): (d: real)
    ensures d == 0.0 <==> x <= 0.0
    ensures d == 1.0 <==> x > 0.0
  {
    if x <= 0.0 then 0.0 else 1.0
  }

  const relu := Activation(ReluSource, ReluDerivative)

  /** On either side of zero, `relu` moves at the rate its derivative names. */
  lemma ReluSlope(x: real, y: real)
    requires (x <= 0.0 && y <= 0.0) || (x > 0.0 && y > 0.0)
    ensures relu.source(y) - relu.source(x) == relu.derivative(x) * (y - x)
  {
  }

  // ---------------------------------------------------------------------
  // elliotsig

  /** `x / (1 + |x|)`: squashes the real line into (-1, 1), keeping the sign. */
  function ElliotSource(x: real): (y: real)
    ensures -1.0 < y < 1.0
    ensures y > 0.0 <==> x > 0.0
    ensures y < 0.0 <==> x < 0.0
  {
    var d := 1.0 + Abs(x);
    var y := x / d;
    assert y * d == x;
    assert Abs(y) * d == Abs(x) < d;
    y
  }

  /** `1 / (1 + |x|)^2`: positive, at most 1, and 1 only at zero. */
  function ElliotDerivative(x: real): (d: real)
    ensures 0.0 < d <= 1.0
    ensures d == 1.0 <==> x == 0.0
  {
    var s := (1.0 + Abs(x)) * (1.0 + Abs(x));
    assert s >= 1.0 + Abs(x) >= 1.0;
    assert x != 0.0 ==> s > 1.0;
    1.0 / s
  }

  const elliotsig := Activation(ElliotSource, ElliotDerivative)

  /** Between two points of the same sign, the difference quotient of
      `elliotsig` is `1 / ((1 + |x|)(1 + |y|))`; at y = x that is the
      derivative, so the derivative is the slope of the source. */
  lemma {:induction false} ElliotSlope(x: real, y: real)
    requires x * y >= 0.0
    ensures elliotsig.source(y) - elliotsig.source(x)
         == (y - x) / ((1.0 + Abs(x)) * (1.0 + Abs(y)))
    ensures elliotsig.derivative(x) == 1.0 / ((1.0 + Abs(x)) * (1.0 + Abs(x)))
  {
    var dx, dy := 1.0 + Abs(x), 1.0 + Abs(y);
    var sx, sy := x / dx, y / dy;
    assert sx * dx == x && sy * dy == y;
    // Same sign: x * |y| == |x| * y.
    assert x * Abs(y) == Abs(x) * y;
    calc {
      (sy - sx) * (dx * dy);
      sy * dy * dx - sx * dx * dy;
      y * dx - x * dy;
      y + y * Abs(x) - x - x * Abs(y);
      y - x;
    }
    assert dx * dy > 0.0;
  }

  /** `elliotsig` is strictly increasing. */
  lemma {:induction false} ElliotIncreasing(x: real, y: real)
    requires x < y
    ensures elliotsig.source(x) < elliotsig.source(y)
  {
    if x * y >= 0.0 {
      ElliotSlope(x, y);
      var p := (1.0 + Abs(x)) * (1.0 + Abs(y));
      assert p > 0.0;
      assert (y - x) / p > 0.0;
    } else {
      assert x < 0.0 < y;
    }
  }

  // ---------------------------------------------------------------------
  // sinc

  /** `sinc` source: 1 at zero by its explicit branch, `sin(x) / x` elsewhere,
      with `Math.sin` supplied by the caller. */
  function SincSource(sin: real -> real, x: real): (y: real)
    ensures x == 0.0 ==> y == 1.0
  {
    if x == 0.0 then 1.0 else sin(x) / x
  }

  /** `sinc` derivative: 0 at zero by its explicit branch,
      `cos(x) / x - sin(x) / x^2` elsewhere. */
  function SincDerivative(sin: real -> real, cos: real -> real, x: real): (d: real)
    ensures x == 0.0 ==> d == 0.0
  {
    if x == 0.0 then 0.0 else cos(x) / x - sin(x) / (x * x)
  }

  function Sinc(sin: real -> real, cos: real -> real): (a: Activation)
    ensures a.source(0.0) == 1.0 && a.derivative(0.0) == 0.0
  {
    Activation(x => SincSource(sin, x), x => SincDerivative(sin, cos, x))
  }
}
