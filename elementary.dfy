/**
 * The functions of Python's `math` module that the formulas use. Their
 * numeric values are not modelled: an `Elementary` value holds them as
 * uninterpreted total functions, and each lemma that needs a property of
 * one of them (exp is positive, sinh is odd, ...) requires it as one of the
 * law predicates below.
 */
module Elementary {
  import opened PyRuntime

  /** math.pi, the double closest to pi. */
  const Pi: real := 3.141592653589793

  datatype Elementary = Elementary(
    exp: real -> real,
    ln: real -> real,
    pow: (real, real) -> real,
    cosh: real -> real,
    sinh: real -> real)

  ghost predicate ExpPositive(m: Elementary) {
    forall x :: m.exp(x) > 0.0
  }

  ghost predicate ExpIncreasing(m: Elementary) {
    forall x, y :: x < y ==> m.exp(x) < m.exp(y)
  }

  /** ln is positive above one. */
  ghost predicate LnPositiveAboveOne(m: Elementary) {
    forall x :: x > 1.0 ==> m.ln(x) > 0.0
  }

  /** A positive base raised to any power is positive. */
  ghost predicate PowPositive(m: Elementary) {
    forall x, y :: x > 0.0 ==> m.pow(x, y) > 0.0
  }

  /** A base of at least one raised to a non-negative power is at least one. */
  ghost predicate PowAtLeastOne(m: Elementary) {
    forall x, y :: x >= 1.0 && y >= 0.0 ==> m.pow(x, y) >= 1.0
  }

  /** cosh is positive, sinh has the sign of its argument, and
      x * cosh(x) exceeds sinh(x) for positive x (that is, tanh(x) < x). */
  ghost predicate HyperbolicLaws(m: Elementary) {
    && (forall x :: m.cosh(x) > 0.0)
    && (forall x :: x > 0.0 ==> m.sinh(x) > 0.0)
    && (forall x :: x < 0.0 ==> m.sinh(x) < 0.0)
    && m.sinh(0.0) == 0.0
    && (forall x :: x > 0.0 ==> m.sinh(x) < x * m.cosh(x))
  }

  predicate IsInteger(y: real) {
    y.Floor as real == y
  }

  /** math.log: ValueError for a non-positive argument. */
  function Log(m: Elementary, x: real): (r: Result<real>)
    ensures r.Ok? <==> x > 0.0
    ensures r.Err? ==> r.error == ValueError
  {
    if x <= 0.0 then Err(ValueError) else Ok(m.ln(x))
  }

  /** Python's `x ** y` for floats with a fractional or negative exponent:
      zero to a negative power raises ZeroDivisionError, zero to a positive
      power is zero and to the power zero is one, and a negative base with a
      non-integer exponent gives a complex number. */
  function Pow(m: Elementary, x: real, y: real): (r: Result<real>)
    ensures r.Ok? <==> x > 0.0 || (x == 0.0 && y >= 0.0) || (x < 0.0 && IsInteger(y))
    ensures x > 0.0 ==> r == Ok(m.pow(x, y))
    ensures x == 0.0 && y < 0.0 ==> r == Err(ZeroDivisionError)
    ensures x == 0.0 && y > 0.0 ==> r == Ok(0.0)
    ensures x < 0.0 && !IsInteger(y) ==> r == Err(ComplexValue)
  {
    if x == 0.0 then
      if y < 0.0 then Err(ZeroDivisionError)
      else if y == 0.0 then Ok(1.0)
      else Ok(0.0)
    else if x < 0.0 && !IsInteger(y) then Err(ComplexValue)
    else Ok(m.pow(x, y))
  }
}
