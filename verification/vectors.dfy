/** Two-dimensional vector arithmetic (physics/Vector2.kt): an immutable value
    whose operators each build a new vector componentwise. */
module Vectors {
  import opened Numeric
  import opened Oracles

  datatype Vector2 = Vector2(x: real, y: real)

  /** `Vector2.ZERO` */
  const ZERO: Vector2 := Vector2(0.0, 0.0)

  /** `operator plus` */
  function Plus(a: Vector2, b: Vector2): Vector2
  {
    Vector2(a.x + b.x, a.y + b.y)
  }

  /** `operator minus` */
  function Minus(a: Vector2, b: Vector2): Vector2
  {
    Vector2(a.x - b.x, a.y - b.y)
  }

  /** `operator times` */
  function Times(a: Vector2, s: real): Vector2
  {
    Vector2(a.x * s, a.y * s)
  }

  /** `operator div`; the divisor must be non-zero because a real quotient by zero
      (an IEEE infinity or NaN in the source) has no value here. */
  function Div(a: Vector2, s: real): Vector2
    requires s != 0.0
  {
    Vector2(a.x / s, a.y / s)
  }

  /** The squared length, the argument `length()` takes the root of. */
  function LengthSquared(a: Vector2): (r: real)
    ensures 0.0 <= r
  {
    a.x * a.x + a.y * a.y
  }

  /** Only the zero vector has squared length 0. */
  lemma LengthSquaredZero(a: Vector2)
    ensures LengthSquared(a) == 0.0 <==> a == ZERO
  {
    Square(a.x, a.x * a.x);
    Square(a.y, a.y * a.y);
  }

  /** `length()` */
  function Length(a: Vector2, sqrt: real -> real): real
  {
    sqrt(LengthSquared(a))
  }

  /** `normalized()`: the vector divided by its length, or ZERO when the length
      is not positive, so it never divides by zero. */
  function Normalized(a: Vector2, sqrt: real -> real): Vector2
  {
    var len := Length(a, sqrt);
    if len > 0.0 then Div(a, len) else ZERO
  }

  /** Subtracting what was added gives the original vector back. */
  lemma PlusMinusCancel(a: Vector2, b: Vector2)
    ensures Minus(Plus(a, b), b) == a
  {
  }

  lemma PlusCommutes(a: Vector2, b: Vector2)
    ensures Plus(a, b) == Plus(b, a)
  {
  }

  /** ZERO is the identity of plus. */
  lemma ZeroIsIdentity(a: Vector2)
    ensures Plus(a, ZERO) == a && Plus(ZERO, a) == a
  {
  }

  /** Scaling by one, in either operator, changes nothing. */
  lemma ScaleByOne(a: Vector2)
    ensures Times(a, 1.0) == a && Div(a, 1.0) == a
  {
  }

  /** `times` distributes over `plus`. */
  lemma TimesDistributes(a: Vector2, b: Vector2, s: real)
    ensures Times(Plus(a, b), s) == Plus(Times(a, s), Times(b, s))
  {
  }

  lemma LengthNonNegative(a: Vector2, sqrt: real -> real)
    requires IsSqrt(sqrt)
    ensures 0.0 <= Length(a, sqrt)
  {
  }

  /** The zero vector has length 0 and normalises to ZERO. */
  lemma NormalizedOfZero(sqrt: real -> real)
    requires IsSqrt(sqrt)
    ensures Length(ZERO, sqrt) == 0.0
    ensures Normalized(ZERO, sqrt) == ZERO
  {
    SqrtZero(sqrt);
  }

  /** A non-zero vector normalises to a vector of length exactly 1. */
  lemma NormalizedIsUnit(a: Vector2, sqrt: real -> real)
    requires IsSqrt(sqrt) && a != ZERO
    ensures Length(Normalized(a, sqrt), sqrt) == 1.0
  {
    var sq := LengthSquared(a);
    var len := Length(a, sqrt);
    LengthSquaredZero(a);
    SqrtPositive(sqrt, sq);
    assert len * len == sq;
    var n := Div(a, len);
    assert Normalized(a, sqrt) == n;
    assert n == Vector2(a.x / len, a.y / len);
    ScaledSquare(n.x, len, a.x, sq);
    ScaledSquare(n.y, len, a.y, sq);
    SumCancels(n.x * n.x, n.y * n.y, sq, a.x * a.x, a.y * a.y);
    assert LengthSquared(n) == 1.0;
    SqrtOne(sqrt);
  }
}
