/** Shared vocabulary of the patch antenna calculator: optional fields,
    the exceptions the calculator can raise, results, the physical
    constants it uses, and the floating-point math library it calls. */
module Basics {

  /** A field that may still be `None` in the calculator. */
  datatype Option<T> = None | Some(value: T)

  /** The exceptions the calculator raises, one constructor per cause. */
  datatype Error =
    | HeightNotPositive        // ValueError from the substrate constructor
    | CuThicknessNotPositive   // ValueError from the substrate constructor
    | PermittivityNotPositive  // ValueError from the substrate constructor
    | EpsilonEffUndefined      // ValueError from calculate_epsilon_eff's guard
    | ZeroDivision             // ZeroDivisionError from a `/`
    | MathDomain               // ValueError "math domain error" from sqrt or acos
    | NoneOperand              // TypeError: a field that is still None used as a number

  /** A computed value, or the exception that interrupted its computation. */
  datatype Result<T> = Ok(value: T) | Err(error: Error)

  /** How a method that returns nothing ended: normally, or by raising. */
  datatype Outcome = Pass | Fail(error: Error)

  /** Speed of light in vacuum, m/s. */
  const C: real := 299792458.0

  /** The double closest to pi, as the math library defines it. */
  const Pi: real := 3.141592653589793

  /** The target characteristic impedance, in ohms, that the pipeline
      passes to the feed-width and inset-length formulas. */
  const FeedImpedance: real := 50.0

  /** The foreign math library: `sqrt`, `exp`, `acos` and a fractional `pow`.
      They are parameters of the model, so every result holds for any
      functions in their place; the domain errors they raise are checked
      by the callers before the call. */
  datatype MathLib = MathLib(
    sqrt: real -> real,
    exp: real -> real,
    acos: real -> real,
    pow: (real, real) -> real)

  /** The few facts about the real math functions that some lemmas use:
      a square root is non-negative and squares back, `exp` is positive,
      a square is non-negative and zero only at zero, and `x` to the
      power -0.5 lies strictly between 0 and 1 when x > 1. */
  ghost predicate Sound(m: MathLib)
  {
    (forall x: real :: x >= 0.0 ==> m.sqrt(x) >= 0.0 && m.sqrt(x) * m.sqrt(x) == x) &&
    (forall x: real :: m.exp(x) > 0.0) &&
    (forall x: real :: m.pow(x, 2.0) >= 0.0 && (m.pow(x, 2.0) == 0.0 <==> x == 0.0)) &&
    (forall x: real :: x > 1.0 ==> 0.0 < m.pow(x, -0.5) < 1.0)
  }

  /** Python truthiness of an optional number: `None` and `0` are false. */
  function Truthy(x: Option<real>): (r: bool)
    ensures !r <==> x == None || x == Some(0.0)
  {
    x.Some? && x.value != 0.0
  }

  /** Signs of a product of two different quantities. */
  lemma ProductSign(a: real, b: real)
    ensures a > 0.0 && b > 0.0 ==> a * b > 0.0
    ensures a < 0.0 && b > 0.0 ==> a * b < 0.0
    ensures a >= 0.0 && b >= 0.0 ==> a * b >= 0.0
  {
  }

  /** Signs of a quotient. */
  lemma QuotientSign(n: real, d: real)
    requires d != 0.0
    ensures n > 0.0 && d > 0.0 ==> n / d > 0.0
    ensures n > 0.0 && d < 0.0 ==> n / d < 0.0
    ensures n < 0.0 && d > 0.0 ==> n / d < 0.0
    ensures n != 0.0 ==> n / d != 0.0
  {
  }

  /** A quotient by a positive number is below 1 exactly when the
      dividend is below the divisor. */
  lemma QuotientBelowOne(a: real, b: real)
    requires b > 0.0
    ensures a / b < 1.0 <==> a < b
  {
    ProductSign(a / b - 1.0, b);
    assert (a / b - 1.0) * b == a - b;
  }

  /** Under `Sound`, the square root of a positive number is positive. */
  lemma SqrtPositive(m: MathLib, x: real)
    requires Sound(m) && x > 0.0
    ensures m.sqrt(x) > 0.0
  {
    assert m.sqrt(x) * m.sqrt(x) == x;
  }

  /** Under `Sound`, a square root exceeds 1 exactly when its argument does. */
  lemma SqrtAboveOne(m: MathLib, x: real)
    requires Sound(m) && x >= 0.0
    ensures m.sqrt(x) > 1.0 <==> x > 1.0
  {
    var s := m.sqrt(x);
    assert s >= 0.0 && s * s == x;
    if s > 1.0 {
      assert s * s > s * 1.0;
    } else {
      assert s * s <= s * 1.0;
    }
  }
}
