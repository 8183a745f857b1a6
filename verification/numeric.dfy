/** Scalar helpers shared by the whole model: Kotlin's `coerceIn`, `min`/`max`,
    the truncating `Float.toInt()` and the truncating `%` on floats. `Float` is
    modelled as `real`, so IEEE rounding, NaN and infinities are not represented. */
module Numeric {
  /** A value that may be absent: Kotlin's nullable types. */
  datatype Option<T> = None | Some(value: T)

  /** `Math.PI.toFloat()` */
  const PI: real := 3.1415927

  /** `Int.MAX_VALUE`, the value `Float.toInt()` saturates to for +infinity */
  const INT_MAX: int := 2147483647

  /** `Float.MAX_VALUE`, the largest finite float. */
  const FLOAT_MAX_VALUE: real := 340282346638528859811704183484516925440.0

  /** `Float.MIN_VALUE`, the smallest POSITIVE float (2^-149), not the most
      negative one. */
  const FLOAT_MIN_VALUE: real := 1.0 / 713623846352979940529142984724747568191373312.0

  /** Kotlin's `v.coerceIn(lo, hi)`; the library throws when lo > hi, which no
      call site in the model can reach because every bound is a constant. */
  function Clamp(v: real, lo: real, hi: real): (r: real)
    requires lo <= hi
    ensures lo <= r <= hi
    ensures lo <= v <= hi ==> r == v
    ensures v <= lo ==> r == lo
    ensures hi <= v ==> r == hi
  {
    if v < lo then lo else if v > hi then hi else v
  }

  /** `kotlin.math.min` on floats */
  function Min(a: real, b: real): (r: real)
    ensures r <= a && r <= b
    ensures r == a || r == b
  {
    if a <= b then a else b
  }

  /** `kotlin.math.max` on floats */
  function Max(a: real, b: real): (r: real)
    ensures a <= r && b <= r
    ensures r == a || r == b
  {
    if a >= b then a else b
  }

  /** `abs` on floats */
  function Abs(a: real): (r: real)
    ensures 0.0 <= r
    ensures r == a || r == -a
  {
    if a < 0.0 then -a else a
  }

  /** `Float.toInt()`: rounds toward zero (saturation at the Int range is not
      modelled here; callers that can overflow say so). */
  function Trunc(v: real): (t: int)
    ensures 0.0 <= v ==> 0 <= t && t as real <= v < t as real + 1.0
    ensures v < 0.0 ==> t <= 0 && t as real - 1.0 < v <= t as real
  {
    if v >= 0.0 then v.Floor else -((-v).Floor)
  }

  /** Kotlin's `a % b` on floats: the remainder of truncating division, so its
      sign is the sign of the dividend `a` (unlike Dafny's Euclidean `%`). */
  function KotlinRem(a: real, b: real): (r: real)
    requires b != 0.0
  {
    a - b * Trunc(a / b) as real
  }

  /** The remainder is smaller than the divisor in magnitude, carries the sign of
      the dividend, and differs from the dividend by a whole multiple of b. */
  lemma KotlinRemBounds(a: real, b: real)
    requires b != 0.0
    ensures 0.0 <= a ==> 0.0 <= KotlinRem(a, b) < Abs(b)
    ensures a < 0.0 ==> -Abs(b) < KotlinRem(a, b) <= 0.0
    ensures a == b * Trunc(a / b) as real + KotlinRem(a, b)
  {
    var q := a / b;
    assert q * b == a;
    RemainderOfQuotient(a, b, q, Trunc(q) as real);
  }

  /** The bounds of `a - b*t` when t is q = a/b rounded toward zero. */
  lemma RemainderOfQuotient(a: real, b: real, q: real, t: real)
    requires b != 0.0 && q * b == a
    requires 0.0 <= q ==> 0.0 <= t <= q < t + 1.0
    requires q < 0.0 ==> t - 1.0 < q <= t <= 0.0
    ensures 0.0 <= a ==> 0.0 <= a - b * t < Abs(b)
    ensures a < 0.0 ==> -Abs(b) < a - b * t <= 0.0
  {
    var frac := q - t;
    var r := a - b * t;
    assert r == frac * b;
    SignOfQuotient(a, b, q);
    if 0.0 <= a && 0.0 < b {
      ScaleBounds(frac, b, r);
    } else if a < 0.0 && b < 0.0 {
      assert -r == frac * (-b);
      ScaleBounds(frac, -b, -r);
    } else if a < 0.0 {
      assert -r == (-frac) * b;
      ScaleBounds(-frac, b, -r);
    } else if q == 0.0 {
      assert r == 0.0;
    } else {
      assert r == (-frac) * (-b);
      ScaleBounds(-frac, -b, r);
    }
  }

  lemma SignOfQuotient(a: real, b: real, q: real)
    requires b != 0.0 && q * b == a
    ensures b > 0.0 ==> (0.0 <= a <==> 0.0 <= q)
    ensures b < 0.0 ==> (0.0 <= a <==> q <= 0.0)
  {
  }

  /** A fraction in [0,1) of a positive quantity stays in [0, that quantity). */
  lemma ScaleBounds(f: real, m: real, p: real)
    requires 0.0 <= f < 1.0 && 0.0 < m && p == f * m
    ensures 0.0 <= p < m
  {
  }

  /** A quotient squared, scaled back by the squared divisor. */
  lemma ScaledSquare(u: real, d: real, x: real, dd: real)
    requires d != 0.0 && u == x / d && dd == d * d
    ensures (u * u) * dd == x * x
  {
    assert u * d == x;
    assert (u * u) * dd == (u * d) * (u * d);
  }

  /** Two parts of a positive whole, each scaled down by it, add up to one. */
  lemma SumCancels(a: real, b: real, dd: real, x: real, y: real)
    requires 0.0 < dd && a * dd == x && b * dd == y && x + y == dd
    ensures a + b == 1.0
  {
    var s := a + b;
    assert s * dd == dd;
    assert s == (s * dd) / dd;
  }
}

/** Stand-ins for `kotlin.math.sqrt`, `sin`, `cos` and `kotlin.random.Random`,
    which are foreign to the model: they are passed in as function values and only
    the facts below are assumed of them. */
module Oracles {
  import opened Numeric

  /** `sqrt` returns the non-negative square root of a non-negative argument. */
  ghost predicate IsSqrt(sqrt: real -> real)
  {
    forall v: real {:trigger sqrt(v)} :: 0.0 <= v ==> 0.0 <= sqrt(v) && sqrt(v) * sqrt(v) == v
  }

  /** `sin` and `cos` stay within [-1, 1] and satisfy sin^2 + cos^2 = 1. */
  ghost predicate IsTrig(sin: real -> real, cos: real -> real)
  {
    && (forall a: real {:trigger sin(a)} :: -1.0 <= sin(a) <= 1.0)
    && (forall a: real {:trigger cos(a)} :: -1.0 <= cos(a) <= 1.0)
    && (forall a: real {:trigger sin(a), cos(a)} :: sin(a) * sin(a) + cos(a) * cos(a) == 1.0)
  }

  /** `Random.nextFloat()`: every draw lies in [0, 1). Draw number `channel` made
      for particle slot (or loop step) `slot` is `rand(slot, channel)`. */
  ghost predicate IsUnitRng(rand: (int, int) -> real)
  {
    forall slot: int, channel: int {:trigger rand(slot, channel)} :: 0.0 <= rand(slot, channel) < 1.0
  }

  /** A product of two positive numbers, named `p`, is positive. */
  lemma ProductPositive(a: real, b: real, p: real)
    requires 0.0 < a && 0.0 < b && p == a * b
    ensures 0.0 < p
  {
  }

  /** Facts about `s`, the square of `x`, stated on the name `s` (the solver
      handles a named square more reliably than the product term itself). */
  lemma Square(x: real, s: real)
    requires s == x * x
    ensures 0.0 <= s
    ensures s == 0.0 <==> x == 0.0
  {
    if x > 0.0 {
      ProductPositive(x, x, s);
    } else if x < 0.0 {
      assert s == (-x) * (-x);
      ProductPositive(-x, -x, s);
    }
  }

  lemma SquareStrictlyMonotone(lo: real, hi: real)
    requires 0.0 <= lo < hi
    ensures lo * lo < hi * hi
  {
    var gap := hi * hi - lo * lo;
    assert gap == (hi - lo) * (hi + lo);
    ProductPositive(hi - lo, hi + lo, gap);
  }

  /** Multiplying by a non-negative factor keeps an order. */
  lemma ScaleNonNegative(a: real, b: real, c: real)
    requires a <= b && 0.0 <= c
    ensures a * c <= b * c
  {
    var d := (b - a) * c;
    if 0.0 < c && a < b {
      ProductPositive(b - a, c, d);
    }
  }

  /** Squaring is monotone on non-negative numbers. */
  lemma MultiplyBounds(a: real, b: real)
    requires 0.0 <= a <= b
    ensures a * a <= b * b
  {
    if a < b {
      SquareStrictlyMonotone(a, b);
    }
  }

  lemma SqrtZero(sqrt: real -> real)
    requires IsSqrt(sqrt)
    ensures sqrt(0.0) == 0.0
  {
    var r := sqrt(0.0);
    assert r * r == 0.0;
    Square(r, r * r);
  }

  lemma SqrtPositive(sqrt: real -> real, v: real)
    requires IsSqrt(sqrt) && 0.0 < v
    ensures 0.0 < sqrt(v)
  {
    assert sqrt(v) * sqrt(v) == v;
  }

  /** sqrt is monotone: a larger argument never has a smaller root. */
  lemma SqrtMonotone(sqrt: real -> real, a: real, b: real)
    requires IsSqrt(sqrt) && 0.0 <= a <= b
    ensures sqrt(a) <= sqrt(b)
  {
    var ra, rb := sqrt(a), sqrt(b);
    assert 0.0 <= ra && ra * ra == a;
    assert 0.0 <= rb && rb * rb == b;
    if ra > rb {
      SquareStrictlyMonotone(rb, ra);
    }
  }

  /** The only non-negative root of 1 is 1. */
  lemma SqrtOne(sqrt: real -> real)
    requires IsSqrt(sqrt)
    ensures sqrt(1.0) == 1.0
  {
    var r := sqrt(1.0);
    assert 0.0 <= r && r * r == 1.0;
    if r < 1.0 {
      SquareStrictlyMonotone(r, 1.0);
    } else if r > 1.0 {
      SquareStrictlyMonotone(1.0, r);
    }
  }

  /** `lerp(a, b, t)` */
  function Lerp(a: real, b: real, t: real): real
  {
    a + (b - a) * t
  }

  /** `lerp` reaches its endpoints at t = 0 and t = 1, and for t in [0, 1] it
      stays between them and leaves the fraction 1 - t of the gap. */
  lemma LerpShape(a: real, b: real, t: real)
    ensures Lerp(a, b, 0.0) == a && Lerp(a, b, 1.0) == b
    ensures b - Lerp(a, b, t) == (b - a) * (1.0 - t)
    ensures 0.0 <= t <= 1.0 ==> Min(a, b) <= Lerp(a, b, t) <= Max(a, b)
  {
    assert b - Lerp(a, b, t) == (b - a) * (1.0 - t);
    if 0.0 <= t <= 1.0 {
      if a <= b {
        FractionOfGap(b - a, t, (b - a) * t);
      } else {
        FractionOfGap(a - b, t, (a - b) * t);
        assert (b - a) * t == -((a - b) * t);
      }
    }
  }

  /** A fraction t in [0, 1] of a non-negative gap c lies in [0, c]. */
  lemma FractionOfGap(c: real, t: real, g: real)
    requires 0.0 <= c && 0.0 <= t <= 1.0 && g == c * t
    ensures 0.0 <= g <= c
  {
    ScaleNonNegative(0.0, t, c);
    ScaleNonNegative(t, 1.0, c);
    assert g == t * c;
  }

  /** `sqrt(dx * dx + dy * dy)`, the length of the offset (dx, dy). */
  function OffsetLength(dx: real, dy: real, sqrt: real -> real): (d: real)
    ensures IsSqrt(sqrt) ==> 0.0 <= d && d * d == dx * dx + dy * dy
  {
    sqrt(dx * dx + dy * dy)
  }

  /** A vector of length `m` turned by an angle with cosine `c` and sine `s` still has length `m`. */
  lemma RotatedMagnitude(c: real, s: real, m: real)
    requires s * s + c * c == 1.0
    ensures (c * m) * (c * m) + (s * m) * (s * m) == m * m
  {
    assert (c * m) * (c * m) + (s * m) * (s * m) == (c * c + s * s) * (m * m);
  }

  /** A draw `r` from [0, 1) spread over an interval of width `range` centred on 0. */
  function Variation(r: real, range: real): real
  {
    r * range - range / 2.0
  }

  /** A variation lies within half its range of 0. */
  lemma VariationRange(r: real, range: real)
    requires 0.0 <= r < 1.0 && 0.0 <= range
    ensures -range / 2.0 <= Variation(r, range) <= range / 2.0
  {
    ScaleNonNegative(0.0, r, range);
    ScaleNonNegative(r, 1.0, range);
  }
}
