/** The floating-point vocabulary the generators rely on. `M_PI`, `cos` and `sin`
    are left uninterpreted, and so is the value a floating-point division by zero
    yields (an IEEE infinity or NaN); rounding is not modelled. */
module FloatModel {

  /** An unknown value for `M_PI`, unknown total functions for `cos` and `sin`,
      and, for each numerator `a`, the unknown value of `a / 0`. */
  datatype Trig = Trig(pi: real, cos: real -> real, sin: real -> real, divByZero: real -> real)

  /** `cos(a)`. */
  function Cos(m: Trig, a: real): real
  {
    m.cos(a)
  }

  /** `sin(a)`. */
  function Sin(m: Trig, a: real): real
  {
    m.sin(a)
  }

  /** Floating-point multiplication `a * b`, kept as a named operation so that the
      same product computed twice is recognisably the same value. */
  function Mul(a: real, b: real): real
  {
    a * b
  }

  /** Floating-point division `a / b`: the exact quotient when `b` is not zero. */
  function Div(m: Trig, a: real, b: real): real
  {
    if b == 0.0 then m.divByZero(a) else a / b
  }
}
