/**
 * The parts of Python's runtime behaviour that the borehole code relies on
 * without guarding: exceptions raised by float division and by missing
 * attributes or keys, and the `None` default of optional arguments.
 */
module PyRuntime {

  /** The exceptions the modelled code can raise. `ComplexValue` stands for a
      negative float raised to a fractional power, where Python goes on with a
      complex number; the model stops there instead. */
  datatype Error =
    | ZeroDivisionError
    | ValueError
    | TypeError
    | KeyError
    | LookupError
    | AttributeError
    | AssertionError
    | NameError
    | ComplexValue

  datatype Option<+T> = None | Some(value: T)

  /** A computation that either returns a value or raises. */
  datatype Result<+T> = Ok(value: T) | Err(error: Error) {
    predicate IsFailure() {
      Err?
    }

    function PropagateFailure<U>(): Result<U>
      requires Err?
    {
      Err(error)
    }

    function Extract(): T
      requires Ok?
    {
      value
    }
  }

  /** Python's `x / y` on floats: raises ZeroDivisionError when `y` is zero. */
  function Div(x: real, y: real): (r: Result<real>)
    ensures r.Ok? <==> y != 0.0
    ensures r.Err? ==> r.error == ZeroDivisionError
    ensures r.Ok? ==> r.value * y == x
  {
    if y == 0.0 then Err(ZeroDivisionError) else Ok(x / y)
  }

  /** Python's truthiness of an optional float argument: `None` and `0.0`
      are both false. */
  predicate Truthy(x: Option<real>) {
    x.Some? && x.value != 0.0
  }
}
