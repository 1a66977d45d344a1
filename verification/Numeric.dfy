/** Numbers shared by the controller, the pool and the sampler.

    Binary floating point is modelled by `real`; a `Float` is used only where the
    program asks whether a value is finite. */
module Numeric {

  datatype Option<+T> = None | Some(value: T)

  datatype Result<+T, +E> = Ok(value: T) | Err(error: E)

  type Error = string

  datatype Float = NaN | Infinite(positive: bool) | Finite(value: real)

  function Clamp(value: real, lower: real, upper: real): real {
    if value < lower then lower
    else if value > upper then upper
    else value
  }

  /** `v` is the number of the unit interval closest to `x`. */
  predicate ClosestInUnit(v: real, x: real) {
    0.0 <= v <= 1.0 && (v < x ==> v == 1.0) && (x < v ==> v == 0.0)
  }

  function Min(a: real, b: real): real {
    if a <= b then a else b
  }

  function Max(a: real, b: real): real {
    if a >= b then a else b
  }

  /** Runnable counts that are not finite, or are negative, count as zero. */
  function NormaliseRunnable(runnable: Float): real {
    match runnable
    case Finite(r) => if r < 0.0 then 0.0 else r
    case _ => 0.0
  }

  function Pow(base: real, exponent: nat): real {
    if exponent == 0 then 1.0 else base * Pow(base, exponent - 1)
  }

  lemma {:induction false} PowPositive(base: real, exponent: nat)
    requires 0.0 < base
    ensures 0.0 < Pow(base, exponent)
  {
    if exponent == 0 {
    } else {
      PowPositive(base, exponent - 1);
    }
  }

  lemma ProductPositive(a: real, b: real)
    requires 0.0 < a && 0.0 < b
    ensures 0.0 < a * b
  {
  }

  lemma ProductGreater(a: real, b: real, c: real)
    requires a < b && 0.0 < c
    ensures a * c < b * c
  {
    ProductPositive(b - a, c);
    assert (b - a) * c == b * c - a * c;
  }

  lemma ProductMonotone(a: real, b: real, c: real)
    requires a <= b && 0.0 <= c
    ensures a * c <= b * c
  {
    assert (b - a) * c >= 0.0;
  }
}
