/** Values shared by the effect models: optional arguments, plain 2-D vectors,
    and the range a call to p5.random can return. */
module Common {

  /** An argument or option that may be left out (JavaScript `undefined`). */
  datatype Option<T> = None | Some(value: T)

  /** The x and y components of a p5.Vector, as a value. */
  datatype Vec2 = Vec2(x: real, y: real)

  function Add(a: Vec2, b: Vec2): Vec2 {
    Vec2(a.x + b.x, a.y + b.y)
  }

  /** The value of Math.PI, used for the bounds of random angles. */
  const Pi: real := 3.141592653589793

  /** True when `v` is a value p5.random(a, b) can return. p5 draws from the
      half-open range between the two bounds; the model admits the closed
      range, whichever of the two bounds is the larger. */
  predicate Between(v: real, a: real, b: real) {
    if a <= b then a <= v <= b else b <= v <= a
  }

  // Facts about products and quotients of reals, stated as implications so
  // that callers need no case split.

  lemma {:induction false} MulMonoIf(a: real, b: real, c: real)
    ensures 0.0 <= c && a <= b ==> a * c <= b * c && c * a <= c * b
  {
  }

  lemma {:induction false} MulStrictIf(a: real, b: real, c: real)
    ensures 0.0 < c && a < b ==> a * c < b * c && c * a < c * b
  {
  }

  lemma {:induction false} Quotient(n: real, d: real)
    requires d != 0.0
    ensures (n / d) * d == n
  {
  }

  /** Dividing by a positive number keeps a strict order. */
  lemma {:induction false} DivStrict(a: real, b: real, c: real)
    requires 0.0 < c && a < b
    ensures a / c < b / c
  {
    Quotient(a, c);
    Quotient(b, c);
    MulMonoIf(b / c, a / c, c);
  }

  /** A non-negative number below d, divided by d, lies in [0, 1). */
  lemma {:induction false} FractionBounds(n: real, d: real)
    requires 0.0 <= n < d
    ensures 0.0 <= n / d < 1.0
  {
    Quotient(n, d);
    MulStrictIf(n / d, 0.0, d);
    MulMonoIf(1.0, n / d, d);
  }
}
