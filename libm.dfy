/** The platform's transcendental functions (f32 `sin`, `cos`, `tan`, `powf`).
    Their values are not modelled: every member that evaluates one receives them
    as a `Libm` value, about which only the facts below are known. */
module Libm {

  /** `std::f32::consts::PI` (the model only needs it to be positive). */
  const PI: real := 3.14159265358979323846

  const TwoPi: real := 2.0 * PI

  datatype MathFns = MathFns(
    sin: real -> real,
    cos: real -> real,
    tan: real -> real,
    powf: (real, real) -> real)

  /** Range facts the model is allowed to use. */
  ghost predicate Lawful(m: MathFns) {
    (forall x :: -1.0 <= m.sin(x) <= 1.0) &&
    (forall x :: -1.0 <= m.cos(x) <= 1.0) &&
    (forall b, e :: b > 0.0 ==> m.powf(b, e) > 0.0)
  }

  type Libm = m: MathFns | Lawful(m)
    witness MathFns(_ => 0.0, _ => 0.0, _ => 0.0, (_, _) => 1.0)

  function Sin(m: Libm, x: real): (r: real)
    ensures -1.0 <= r <= 1.0
  {
    assert Lawful(m);
    m.sin(x)
  }

  function Cos(m: Libm, x: real): (r: real)
    ensures -1.0 <= r <= 1.0
  {
    assert Lawful(m);
    m.cos(x)
  }

  function Tan(m: Libm, x: real): real {
    m.tan(x)
  }

  /** `10.0_f32.powf(gain / 20.0)`: decibels to a linear gain, always positive. */
  function DbToGain(m: Libm, gain: real): (u: real)
    ensures u > 0.0
  {
    assert Lawful(m);
    m.powf(10.0, gain / 20.0)
  }
}
