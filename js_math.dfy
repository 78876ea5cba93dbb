/** The few pieces of JavaScript number semantics the calculator relies on:
    finiteness of a parsed number, Math.floor, Math.ceil, Math.max/Math.min,
    and Math.PI and Math.sqrt, which are kept abstract. */
module JsMath {

  /** A number as produced by parseFloat: either a finite value, or one of
      NaN, +Infinity, -Infinity (all rejected by Number.isFinite). */
  datatype Number = Finite(value: real) | NonFinite

  /** Math.floor, on reals. */
  function Floor(x: real): (f: int)
    ensures f as real <= x < f as real + 1.0
  {
    x.Floor
  }

  /** Math.ceil, written through floor as ceil(x) = -floor(-x). */
  function Ceil(x: real): (c: int)
    ensures c as real - 1.0 < x <= c as real
  {
    -Floor(-x)
  }

  function Max(a: real, b: real): real { if a >= b then a else b }

  function Min(a: real, b: real): real { if a <= b then a else b }

  function MaxInt(a: int, b: int): int { if a >= b then a else b }

  /** The two transcendental parts of the JavaScript Math object the
      calculator uses, as an abstract environment: `pi` stands for Math.PI
      and `sqrt` for Math.sqrt. */
  datatype Math = Math(pi: real, sqrt: real -> real) {

    /** Math.sqrt(x). */
    function Sqrt(x: real): real {
      sqrt(x)
    }

    /** What the model assumes of Math.PI and Math.sqrt, and nothing more. */
    ghost predicate Valid() {
      && pi > 0.0
      && forall x: real :: x >= 0.0 ==> Sqrt(x) >= 0.0 && Sqrt(x) * Sqrt(x) == x
    }
  }

  // ---- Arithmetic on reals ----

  lemma PositiveProduct(a: real, b: real)
    requires a > 0.0 && b > 0.0
    ensures a * b > 0.0
  {}

  /** On the non-negative reals, squaring preserves order both ways. */
  lemma SquaresOrder(x: real, y: real)
    requires x >= 0.0 && y >= 0.0
    ensures x * x <= y * y ==> x <= y
  {
    if x > y {
      // x * x - y * y factors as (x - y) * (x + y)
      PositiveProduct(x - y, x + y);
    }
  }

  // ---- Math.sqrt ----

  /** Math.sqrt is monotone on the non-negative reals. */
  lemma SqrtMonotone(m: Math, a: real, b: real)
    requires m.Valid()
    requires 0.0 <= a <= b
    ensures m.Sqrt(a) <= m.Sqrt(b)
  {
    assert m.Sqrt(a) >= 0.0 && m.Sqrt(a) * m.Sqrt(a) == a;
    assert m.Sqrt(b) >= 0.0 && m.Sqrt(b) * m.Sqrt(b) == b;
    SquaresOrder(m.Sqrt(a), m.Sqrt(b));
  }

  /** Math.sqrt(x * x) is x again for every non-negative x. */
  lemma SqrtOfSquare(m: Math, x: real)
    requires m.Valid()
    requires x >= 0.0
    ensures m.Sqrt(x * x) == x
  {
    var s := m.Sqrt(x * x);
    assert x * x >= 0.0;
    assert s >= 0.0 && s * s == x * x;
    SquaresOrder(s, x);
    SquaresOrder(x, s);
  }

  /** `Math.sqrt(a ** 2 + b ** 2)`: the hypotenuse of a right triangle
      with legs a and b. */
  function Hypot(m: Math, a: real, b: real): real {
    m.Sqrt(a * a + b * b)
  }

  /** The hypotenuse is at least as long as either leg. */
  lemma HypotAtLeastLegs(m: Math, a: real, b: real)
    requires m.Valid()
    requires a >= 0.0 && b >= 0.0
    ensures Hypot(m, a, b) >= a
    ensures Hypot(m, a, b) >= b
  {
    assert a * a >= 0.0 && b * b >= 0.0;
    SqrtOfSquare(m, a);
    SqrtMonotone(m, a * a, a * a + b * b);
    SqrtOfSquare(m, b);
    SqrtMonotone(m, b * b, a * a + b * b);
  }

  /** Lengthening either leg never shortens the hypotenuse. */
  lemma HypotMonotone(m: Math, a: real, b: real, a': real, b': real)
    requires m.Valid()
    requires 0.0 <= a <= a' && 0.0 <= b <= b'
    ensures Hypot(m, a, b) <= Hypot(m, a', b')
  {
    assert a * a <= a' * a' by {
      SquaresOrder(a', a);
    }
    assert b * b <= b' * b' by {
      SquaresOrder(b', b);
    }
    assert a * a + b * b >= 0.0;
    SqrtMonotone(m, a * a + b * b, a' * a' + b' * b');
  }
}
