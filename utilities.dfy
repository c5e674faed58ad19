/**
 * bhr/utilities.py: unit conversion, the sigmoid used to blend flow
 * regimes, and the hyperbolic cotangent.
 */
module Utilities {
  import opened PyRuntime
  import opened Elementary

  /** Inches to metres: 0.0254 m to the inch, so dividing by 0.0254 gives
      the inches back. */
  function InchToM(xInch: real): (r: real)
    ensures r / 0.0254 == xInch
    ensures xInch > 0.0 ==> r > 0.0
  {
    xInch * 0.0254
  }

  /** The conversion fixes zero, is strictly increasing and is undone by
      dividing by 0.0254. */
  lemma InchToMLinear(x: real, y: real)
    ensures InchToM(0.0) == 0.0
    ensures x < y ==> InchToM(x) < InchToM(y)
    ensures InchToM(x) / 0.0254 == x
    ensures InchToM(x + y) == InchToM(x) + InchToM(y)
  {
  }

  /** Sigmoid 1 / (1 + exp(-(x - a) / b)). */
  function Smoothing(m: Elementary, x: real, a: real, b: real): (r: Result<real>)
    ensures b == 0.0 ==> r == Err(ZeroDivisionError)
    ensures ExpPositive(m) && b != 0.0 ==> r.Ok? && 0.0 < r.value < 1.0
  {
    var z :- Div(-(x - a), b);
    var e := m.exp(z);
    assert ExpPositive(m) ==> e > 0.0;
    Div(1.0, 1.0 + e)
  }

  /** At its centre the sigmoid is exactly one half. */
  lemma SmoothingAtCentre(m: Elementary, a: real, b: real)
    requires m.exp(0.0) == 1.0
    requires b != 0.0
    ensures Smoothing(m, a, a, b) == Ok(0.5)
  {
    assert -(a - a) / b == 0.0;
  }

  /** For a positive width the sigmoid is strictly increasing. */
  lemma SmoothingIncreasing(m: Elementary, x: real, y: real, a: real, b: real)
    requires ExpPositive(m) && ExpIncreasing(m)
    requires b > 0.0 && x < y
    ensures Smoothing(m, x, a, b).Ok? && Smoothing(m, y, a, b).Ok?
    ensures Smoothing(m, x, a, b).value < Smoothing(m, y, a, b).value
  {
    var zx, zy := -(x - a) / b, -(y - a) / b;
    assert zy < zx by {
      assert -(x - a) > -(y - a);
      DivideByPositive(-(y - a), -(x - a), b);
    }
    var ex, ey := m.exp(zx), m.exp(zy);
    assert 0.0 < ey < ex;
    assert Smoothing(m, x, a, b) == Ok(1.0 / (1.0 + ex));
    assert Smoothing(m, y, a, b) == Ok(1.0 / (1.0 + ey));
    ReciprocalDecreasing(1.0 + ey, 1.0 + ex);
  }

  lemma DivideByPositive(p: real, q: real, b: real)
    requires b > 0.0 && p < q
    ensures p / b < q / b
  {
  }

  lemma ReciprocalDecreasing(p: real, q: real)
    requires 0.0 < p < q
    ensures 1.0 / q < 1.0 / p
  {
  }

  /** Hyperbolic cotangent cosh(x) / sinh(x): defined exactly away from
      zero, and then it times sinh(x) gives back cosh(x). */
  function Coth(m: Elementary, x: real): (r: Result<real>)
    ensures HyperbolicLaws(m) ==> (r.Ok? <==> x != 0.0)
    ensures r.Err? ==> r.error == ZeroDivisionError
    ensures r.Ok? ==> r.value * m.sinh(x) == m.cosh(x)
  {
    Div(m.cosh(x), m.sinh(x))
  }

  /** On the positive axis coth is defined, positive, and x * coth(x) > 1,
      which is what makes the wall-temperature correction exceed one. */
  lemma CothScaledAboveOne(m: Elementary, x: real, v: real)
    requires HyperbolicLaws(m) && x > 0.0
    requires Coth(m, x) == Ok(v)
    ensures v > 0.0 && x * v > 1.0
  {
    ScaledQuotientAboveOne(x, v, m.cosh(x), m.sinh(x));
  }

  lemma ScaledQuotientAboveOne(x: real, v: real, c: real, s: real)
    requires x > 0.0 && c > 0.0 && 0.0 < s < x * c && v * s == c
    ensures v > 0.0 && x * v > 1.0
  {
    if x * v <= 1.0 {
      assert false;
    }
  }

  /** coth as the repository writes it: its module imports only `exp`, so
      the names `cosh` and `sinh` are unbound and every call raises
      NameError. */
  function CothAsWritten(x: real): (r: Result<real>)
    ensures r == Err(NameError)
  {
    Err(NameError)
  }

  /** The discrepancy: at x = 1 the intended value exists, yet the written
      function raises. */
  lemma CothAsWrittenFailsWhereDefined(m: Elementary)
    requires HyperbolicLaws(m)
    ensures Coth(m, 1.0).Ok? && Coth(m, 1.0).value > 1.0
    ensures CothAsWritten(1.0).Err?
  {
    var v := Coth(m, 1.0).value;
    CothScaledAboveOne(m, 1.0, v);
  }
}
