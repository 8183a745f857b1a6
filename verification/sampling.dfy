/** The sampling grid every particle generator walks: the step size derived from
    the requested particle count, the pixels `for (x in 0 until width step s)
    for (y in 0 until height step s)` visits, and the visible ones among them. */
module Sampling {
  import opened Numeric
  import opened Oracles
  import opened Pixels

  datatype Point = Point(x: int, y: int)

  /** `max(1, (1 / sqrt(count / (width * height).toFloat())).toInt())`. A zero
      count makes the density 0 and its reciprocal +Infinity, which `toInt()`
      saturates to `Int.MAX_VALUE`; a negative count makes the density NaN, which
      `toInt()` turns into 0, so the step is 1. */
  function StepSize(count: int, width: int, height: int, sqrt: real -> real): (step: int)
    requires width > 0 && height > 0
    ensures 1 <= step <= INT_MAX
    ensures count == 0 ==> step == INT_MAX
    ensures count < 0 ==> step == 1
  {
    if count < 0 then 1
    else if count == 0 then INT_MAX
    else
      var density := sqrt(count as real / (width * height) as real);
      if density <= 0.0 then INT_MAX
      else
        var spacing := 1.0 / density;
        if spacing >= INT_MAX as real then INT_MAX
        else if Trunc(spacing) < 1 then 1
        else Trunc(spacing)
  }

  /** The step is chosen so that one sample per step-by-step cell does not fall
      short of the request: step * step * count never exceeds the pixel area. */
  lemma StepSizeFitsArea(count: int, width: int, height: int, sqrt: real -> real)
    requires IsSqrt(sqrt) && width > 0 && height > 0
    requires 0 < count <= width * height
    ensures var step := StepSize(count, width, height, sqrt);
      step * step * count <= width * height
  {
    var area, c := (width * height) as real, count as real;
    var ratio := c / area;
    var step := StepSize(count, width, height, sqrt);
    StepWithinSpacing(count, width, height, sqrt);
    CellsFitArea(step as real, sqrt(ratio), ratio, area, c);
    CastProduct(step, step);
    CastProduct(step * step, count);
  }

  /** The step never exceeds the spacing 1 / density it is truncated from. */
  lemma StepWithinSpacing(count: int, width: int, height: int, sqrt: real -> real)
    requires IsSqrt(sqrt) && width > 0 && height > 0
    requires 0 < count <= width * height
    ensures var density := sqrt(count as real / (width * height) as real);
      0.0 < density <= 1.0 && density * density == count as real / (width * height) as real &&
      1.0 <= StepSize(count, width, height, sqrt) as real <= 1.0 / density
  {
    var ratio := count as real / (width * height) as real;
    DensityInUnitRange(sqrt, ratio);
  }

  /** s <= 1 / d with d * d = c / area gives s * s * c <= area. */
  lemma CellsFitArea(s: real, density: real, ratio: real, area: real, c: real)
    requires 0.0 < density && 1.0 <= s <= 1.0 / density && density * density == ratio
    requires 0.0 < area && ratio == c / area
    ensures s * s * c <= area
  {
    var spacing := 1.0 / density;
    MultiplyBounds(s, spacing);
    InverseSquare(density);
    ScaleNonNegative(s * s, spacing * spacing, ratio);
    ScaleNonNegative(s * s * ratio, 1.0, area);
    assert (s * s * ratio) * area == s * s * c by {
      assert ratio * area == c;
    }
  }

  /** sqrt of a ratio in (0, 1] lies in (0, 1]. */
  lemma DensityInUnitRange(sqrt: real -> real, ratio: real)
    requires IsSqrt(sqrt) && 0.0 < ratio <= 1.0
    ensures 0.0 < sqrt(ratio) <= 1.0 && sqrt(ratio) * sqrt(ratio) == ratio
  {
    SqrtPositive(sqrt, ratio);
    SqrtMonotone(sqrt, ratio, 1.0);
    SqrtOne(sqrt);
  }

  lemma InverseSquare(d: real)
    requires 0.0 < d
    ensures (1.0 / d) * (1.0 / d) * (d * d) == 1.0
  {
    var q := 1.0 / d;
    assert q * d == 1.0;
    assert q * q * (d * d) == (q * d) * (q * d);
  }

  lemma CastProduct(a: int, b: int)
    ensures (a * b) as real == a as real * b as real
  {
  }



  /** The pixels `for (y in start until height step step)` visits in column x. */
  function Column(x: int, start: int, height: int, step: int): (c: seq<Point>)
    requires step >= 1
    decreases height - start
  {
    if start >= height then [] else [Point(x, start)] + Column(x, start + step, height, step)
  }

  /** The pixels the nested loops visit, outer loop from column `start` on. */
  function Grid(start: int, width: int, height: int, step: int): (g: seq<Point>)
    requires step >= 1
    decreases width - start
  {
    if start >= width then [] else Column(start, 0, height, step) + Grid(start + step, width, height, step)
  }

  /** The visible pixels of `points`, in order: those the generators turn into
      particles (`pixel.alpha > 0.1f`). */
  function Kept(bitmap: Bitmap, points: seq<Point>): (r: seq<Point>)
  {
    if |points| == 0 then []
    else
      var last := points[|points| - 1];
      Kept(bitmap, points[..|points| - 1]) + (if Visible(bitmap.pixel(last.x, last.y)) then [last] else [])
  }

  /** The pixels a generator emits a particle for, in emission order. */
  function Samples(bitmap: Bitmap, step: int): seq<Point>
    requires step >= 1
  {
    Kept(bitmap, Grid(0, bitmap.width, bitmap.height, step))
  }

  /** One more step of the inner loop, seen from the list of visited pixels. */
  lemma ColumnStep(x: int, y: int, height: int, step: int, visited: seq<Point>)
    requires step >= 1 && y < height
    ensures visited + Column(x, y, height, step) == (visited + [Point(x, y)]) + Column(x, y + step, height, step)
  {
  }

  /** One more step of the outer loop, seen from the list of visited pixels. */
  lemma GridStep(x: int, width: int, height: int, step: int, visited: seq<Point>)
    requires step >= 1 && x < width
    ensures visited + Grid(x, width, height, step) ==
            (visited + Column(x, 0, height, step)) + Grid(x + step, width, height, step)
  {
  }

  /** Keeping the visible pixels distributes over concatenation. */
  lemma {:induction false} KeptAppend(bitmap: Bitmap, a: seq<Point>, b: seq<Point>)
    ensures Kept(bitmap, a + b) == Kept(bitmap, a) + Kept(bitmap, b)
    decreases |b|
  {
    if |b| == 0 {
      assert a + b == a;
    } else {
      var b' := b[..|b| - 1];
      assert (a + b)[..|a + b| - 1] == a + b';
      KeptAppend(bitmap, a, b');
    }
  }

  /** A pixel is kept exactly when it is visited and visible. */
  lemma {:induction false} KeptMembers(bitmap: Bitmap, points: seq<Point>, p: Point)
    ensures p in Kept(bitmap, points) <==> p in points && Visible(bitmap.pixel(p.x, p.y))
    decreases |points|
  {
    if |points| > 0 {
      var init := points[..|points| - 1];
      KeptMembers(bitmap, init, p);
      assert points == init + [points[|points| - 1]];
    }
  }

  /** At most every visited pixel becomes a particle. */
  lemma {:induction false} KeptNoLonger(bitmap: Bitmap, points: seq<Point>)
    ensures |Kept(bitmap, points)| <= |points|
    decreases |points|
  {
    if |points| > 0 {
      KeptNoLonger(bitmap, points[..|points| - 1]);
    }
  }

  /** On a fully opaque bitmap every visited pixel becomes a particle. */
  lemma {:induction false} KeptAllVisible(bitmap: Bitmap, points: seq<Point>)
    requires forall i :: 0 <= i < |points| ==> Visible(bitmap.pixel(points[i].x, points[i].y))
    ensures Kept(bitmap, points) == points
    decreases |points|
  {
    if |points| > 0 {
      var init := points[..|points| - 1];
      KeptAllVisible(bitmap, init);
      assert points == init + [points[|points| - 1]];
    }
  }

  /** Column-major order: the outer loop runs over x, the inner over y. */
  predicate Before(p: Point, q: Point)
  {
    p.x < q.x || (p.x == q.x && p.y < q.y)
  }

  /** Strictly increasing in visiting order; in particular free of repeats. */
  predicate Ascending(points: seq<Point>)
  {
    forall i, j :: 0 <= i < j < |points| ==> Before(points[i], points[j])
  }

  /** The pixels a column visits: from `start` down to the last row, every
      `step`-th one. */
  lemma {:induction false} ColumnMembers(x: int, start: int, height: int, step: int, p: Point)
    requires step >= 1
    ensures p in Column(x, start, height, step) <==>
      p.x == x && start <= p.y < height && (p.y - start) % step == 0
    decreases height - start
  {
    if start < height {
      var rest := Column(x, start + step, height, step);
      assert Column(x, start, height, step) == [Point(x, start)] + rest;
      ColumnMembers(x, start + step, height, step, p);
      if p.x == x && start < p.y {
        var a := p.y - start;
        Shift(a, step);
        assert a - step == p.y - (start + step);
        if a < step {
          ModUnique(a, step, 0, a);
        }
      } else if p.x == x && p.y == start {
        ModUnique(0, step, 0, 0);
      }
    }
  }

  /** Stepping the origin by one step does not change a remainder. */
  lemma Shift(a: int, step: int)
    requires step >= 1
    ensures (a - step) % step == a % step
  {
    var q, r := a / step, a % step;
    assert a == step * q + r;
    assert a - step == step * (q - 1) + r;
    ModUnique(a - step, step, q - 1, r);
  }

  /** Euclidean remainders are unique. */
  lemma ModUnique(a: int, m: int, q: int, r: int)
    requires 1 <= m && 0 <= r < m && a == m * q + r
    ensures a % m == r
  {
    var q', r' := a / m, a % m;
    assert a == m * q' + r';
    if q > q' {
      MulAtLeast(m, q - q');
    } else if q < q' {
      MulAtLeast(m, q' - q);
    }
  }

  lemma MulAtLeast(m: int, d: int)
    requires 1 <= m && 1 <= d
    ensures m <= m * d
  {
    assert m * d == m * (d - 1) + m;
  }

  /** The pixels the nested loops visit are exactly the in-bounds pixels whose
      coordinates are multiples of the step (counted from `start` for x). */
  lemma {:induction false} GridMembers(start: int, width: int, height: int, step: int, p: Point)
    requires step >= 1
    ensures p in Grid(start, width, height, step) <==>
      start <= p.x < width && (p.x - start) % step == 0 && 0 <= p.y < height && p.y % step == 0
    decreases width - start
  {
    if start < width {
      GridMembers(start + step, width, height, step, p);
      ColumnMembers(start, 0, height, step, p);
      if start < p.x {
        Shift(p.x - start, step);
        assert p.x - start - step == p.x - (start + step);
      }
    }
  }

  /** The visiting order is strictly increasing, so no pixel is visited twice. */
  lemma {:induction false} ColumnAscending(x: int, start: int, height: int, step: int)
    requires step >= 1
    ensures Ascending(Column(x, start, height, step))
    decreases height - start
  {
    if start < height {
      var rest := Column(x, start + step, height, step);
      ColumnAscending(x, start + step, height, step);
      forall q | q in rest
        ensures q.x == x && start < q.y
      {
        ColumnMembers(x, start + step, height, step, q);
      }
      var c := Column(x, start, height, step);
      forall i, j | 0 <= i < j < |c|
        ensures Before(c[i], c[j])
      {
        assert c == [Point(x, start)] + rest;
        assert c[j] == rest[j - 1] && rest[j - 1] in rest;
        if 0 < i {
          assert c[i] == rest[i - 1];
        } else {
          assert c[i] == Point(x, start);
        }
      }
    }
  }

  lemma {:induction false} GridAscending(start: int, width: int, height: int, step: int)
    requires step >= 1
    ensures Ascending(Grid(start, width, height, step))
    decreases width - start
  {
    if start < width {
      var col := Column(start, 0, height, step);
      var rest := Grid(start + step, width, height, step);
      ColumnAscending(start, 0, height, step);
      GridAscending(start + step, width, height, step);
      forall q | q in col
        ensures q.x == start
      {
        ColumnMembers(start, 0, height, step, q);
      }
      forall q | q in rest
        ensures start < q.x
      {
        GridMembers(start + step, width, height, step, q);
      }
      var g := Grid(start, width, height, step);
      assert g == col + rest;
      forall i, j | 0 <= i < j < |g|
        ensures Before(g[i], g[j])
      {
        if j < |col| {
          assert g[i] == col[i] && g[j] == col[j];
        } else if i < |col| {
          assert g[i] == col[i] && col[i] in col;
          assert g[j] == rest[j - |col|] && rest[j - |col|] in rest;
        } else {
          assert g[i] == rest[i - |col|] && g[j] == rest[j - |col|];
        }
      }
    }
  }

  /** Keeping preserves a strictly increasing order. */
  lemma {:induction false} KeptAscending(bitmap: Bitmap, points: seq<Point>)
    requires Ascending(points)
    ensures Ascending(Kept(bitmap, points))
    decreases |points|
  {
    if |points| > 0 {
      var init := points[..|points| - 1];
      var last := points[|points| - 1];
      KeptAscending(bitmap, init);
      var k0 := Kept(bitmap, init);
      forall q | q in k0
        ensures Before(q, last)
      {
        KeptMembers(bitmap, init, q);
        var i :| 0 <= i < |init| && init[i] == q;
        assert points[i] == q;
      }
      var k := Kept(bitmap, points);
      assert points == init + [last];
      assert k == k0 + (if Visible(bitmap.pixel(last.x, last.y)) then [last] else []);
      forall i, j | 0 <= i < j < |k|
        ensures Before(k[i], k[j])
      {
        assert k[i] == k0[i];
        if j < |k0| {
          assert k[j] == k0[j];
        } else {
          assert k[j] == last && k0[i] in k0;
        }
      }
    }
  }

  /** How many values `start until bound step step` yields. */
  function Strides(start: int, bound: int, step: int): (n: nat)
    requires step >= 1
    decreases bound - start
  {
    if start >= bound then 0 else 1 + Strides(start + step, bound, step)
  }

  /** The stride count is ceil((bound - start) / step), stated without division. */
  lemma {:induction false} StridesBounds(start: int, bound: int, step: int)
    requires step >= 1 && start < bound
    ensures var n := Strides(start, bound, step);
      1 <= n && (n - 1) * step < bound - start <= n * step
    decreases bound - start
  {
    if start + step < bound {
      StridesBounds(start + step, bound, step);
    }
  }

  /** A column holds one pixel per stride of the inner loop. */
  lemma {:induction false} ColumnLength(x: int, start: int, height: int, step: int)
    requires step >= 1
    ensures |Column(x, start, height, step)| == Strides(start, height, step)
    decreases height - start
  {
    if start < height {
      ColumnLength(x, start + step, height, step);
    }
  }

  /** The grid holds (outer strides) * (inner strides) pixels. */
  lemma {:induction false} GridLength(start: int, width: int, height: int, step: int)
    requires step >= 1
    ensures |Grid(start, width, height, step)| == Strides(start, width, step) * Strides(0, height, step)
    decreases width - start
  {
    if start < width {
      ColumnLength(start, 0, height, step);
      GridLength(start + step, width, height, step);
      var l := Strides(0, height, step);
      assert (Strides(start + step, width, step) + 1) * l == Strides(start + step, width, step) * l + l;
    }
  }

  /** The grid the step size yields holds at least as many pixels as requested
      (when the request fits in the bitmap at all). */
  lemma GridCoversRequest(count: int, width: int, height: int, sqrt: real -> real)
    requires IsSqrt(sqrt) && width > 0 && height > 0
    requires 0 < count <= width * height
    ensures count <= |Grid(0, width, height, StepSize(count, width, height, sqrt))|
  {
    var step := StepSize(count, width, height, sqrt);
    StepSizeFitsArea(count, width, height, sqrt);
    GridLength(0, width, height, step);
    StridesBounds(0, width, step);
    StridesBounds(0, height, step);
    CoverFromBounds(width, height, Strides(0, width, step), Strides(0, height, step), step, count);
  }

  /** n columns and l rows of step-wide cells cover a width x height area that
      holds step * step * count pixels or more: so n * l >= count. */
  lemma CoverFromBounds(width: int, height: int, n: int, l: int, step: int, count: int)
    requires 0 < width <= n * step && 0 < height <= l * step && 1 <= step
    requires 0 < count && step * step * count <= width * height
    ensures count <= n * l
  {
    IntProductMonotone(width, n * step, height, l * step);
    var ss := step * step;
    assert (n * step) * (l * step) == (n * l) * ss;
    assert ss * count == count * ss;
    if n * l < count {
      IntScaleStrict(n * l, count, ss);
    }
  }

  lemma IntProductMonotone(a: int, b: int, c: int, d: int)
    requires 0 <= a <= b && 0 <= c <= d
    ensures a * c <= b * d
  {
    assert a * c <= b * c;
  }

  lemma IntScaleStrict(a: int, b: int, k: int)
    requires a < b && 0 < k
    ensures a * k < b * k
  {
  }
}

/** `calculatePatternValue` and the pattern switch in `calculatePatternValues`:
    the raw emission order value of one pixel. */
module Patterns {
  import opened Oracles
  import opened Config

  /** Squared distance from pixel (x, y) to the centre of a width x height
      image, and the squared distance from the centre to a corner. */
  function CenterOffsetSquared(x: int, y: int, width: int, height: int): real
  {
    var dx := x as real - width as real / 2.0;
    var dy := y as real - height as real / 2.0;
    dx * dx + dy * dy
  }

  function HalfDiagonalSquared(width: int, height: int): real
  {
    var hw := width as real / 2.0;
    var hh := height as real / 2.0;
    hw * hw + hh * hh
  }

  function DistanceToCenter(x: int, y: int, width: int, height: int, sqrt: real -> real): real
  {
    sqrt(CenterOffsetSquared(x, y, width, height))
  }

  function MaxDistance(width: int, height: int, sqrt: real -> real): real
  {
    sqrt(HalfDiagonalSquared(width, height))
  }

  /** The raw value the pattern gives pixel (x, y): the fraction of the way
      across, down, or out from the centre, or one minus it. */
  function PatternValue(pattern: EmissionPattern, x: int, y: int, width: int, height: int, sqrt: real -> real): real
    requires IsSqrt(sqrt) && width > 0 && height > 0
  {
    match pattern
    case LEFT_TO_RIGHT => x as real / width as real
    case RIGHT_TO_LEFT => 1.0 - x as real / width as real
    case TOP_TO_BOTTOM => y as real / height as real
    case BOTTOM_TO_TOP => 1.0 - y as real / height as real
    case CENTER_OUT =>
      MaxDistancePositive(width, height, sqrt);
      DistanceToCenter(x, y, width, height, sqrt) / MaxDistance(width, height, sqrt)
    case OUTSIDE_IN =>
      MaxDistancePositive(width, height, sqrt);
      1.0 - DistanceToCenter(x, y, width, height, sqrt) / MaxDistance(width, height, sqrt)
  }

  lemma MaxDistancePositive(width: int, height: int, sqrt: real -> real)
    requires IsSqrt(sqrt) && width > 0 && height > 0
    ensures 0.0 < MaxDistance(width, height, sqrt)
  {
    var hw, hh := width as real / 2.0, height as real / 2.0;
    ProductPositive(hw, hw, hw * hw);
    ProductPositive(hh, hh, hh * hh);
    SqrtPositive(sqrt, HalfDiagonalSquared(width, height));
  }

  /** Inside the image every pattern value lies in [0, 1]. */
  lemma PatternValueInUnitRange(pattern: EmissionPattern, x: int, y: int, width: int, height: int, sqrt: real -> real)
    requires IsSqrt(sqrt) && 0 <= x < width && 0 <= y < height
    ensures 0.0 <= PatternValue(pattern, x, y, width, height, sqrt) <= 1.0
  {
    match pattern
    case LEFT_TO_RIGHT => FractionBelowOne(x as real, width as real);
    case RIGHT_TO_LEFT => FractionBelowOne(x as real, width as real);
    case TOP_TO_BOTTOM => FractionBelowOne(y as real, height as real);
    case BOTTOM_TO_TOP => FractionBelowOne(y as real, height as real);
    case CENTER_OUT => DistanceWithinMax(x, y, width, height, sqrt);
    case OUTSIDE_IN => DistanceWithinMax(x, y, width, height, sqrt);
  }

  lemma FractionBelowOne(a: real, b: real)
    requires 0.0 <= a < b
    ensures 0.0 <= a / b < 1.0
  {
  }

  /** No pixel of the image is farther from the centre than the corners are. */
  lemma DistanceWithinMax(x: int, y: int, width: int, height: int, sqrt: real -> real)
    requires IsSqrt(sqrt) && 0 <= x < width && 0 <= y < height
    ensures 0.0 < MaxDistance(width, height, sqrt)
    ensures 0.0 <= DistanceToCenter(x, y, width, height, sqrt) / MaxDistance(width, height, sqrt) <= 1.0
  {
    OffsetWithinHalfDiagonal(x, y, width, height);
    MaxDistancePositive(width, height, sqrt);
    SqrtMonotone(sqrt, CenterOffsetSquared(x, y, width, height), HalfDiagonalSquared(width, height));
    QuotientAtMostOne(DistanceToCenter(x, y, width, height, sqrt), MaxDistance(width, height, sqrt));
  }

  lemma OffsetWithinHalfDiagonal(x: int, y: int, width: int, height: int)
    requires 0 <= x < width && 0 <= y < height
    ensures 0.0 <= CenterOffsetSquared(x, y, width, height) <= HalfDiagonalSquared(width, height)
  {
    var hw, hh := width as real / 2.0, height as real / 2.0;
    var dx := x as real - hw;
    var dy := y as real - hh;
    AbsSquareBound(dx, hw);
    AbsSquareBound(dy, hh);
    Square(dx, dx * dx);
    Square(dy, dy * dy);
  }

  lemma QuotientAtMostOne(d: real, m: real)
    requires 0.0 <= d <= m && 0.0 < m
    ensures 0.0 <= d / m <= 1.0
  {
  }

  lemma AbsSquareBound(d: real, h: real)
    requires -h <= d <= h
    ensures d * d <= h * h
  {
    if 0.0 <= d {
      if d < h {
        SquareStrictlyMonotone(d, h);
      }
    } else {
      assert d * d == (-d) * (-d);
      if -d < h {
        SquareStrictlyMonotone(-d, h);
      }
    }
  }

  /** The delay a normalised pattern value gives a particle: disintegration
      releases low values first, assembly high values first; `durationFactor`
      stretches the whole schedule. */
  function EmissionDelay(effect: ParticleEffect, normalized: real, durationFactor: real): real
  {
    match effect
    case DISINTEGRATION => normalized * durationFactor
    case ASSEMBLY => (1.0 - normalized) * durationFactor
  }

  /** Delays stay within [0, durationFactor], and follow the pattern order:
      forward for disintegration, reversed for assembly. */
  lemma EmissionDelayOrder(effect: ParticleEffect, a: real, b: real, durationFactor: real)
    requires 0.0 <= a <= b <= 1.0 && 0.0 <= durationFactor
    ensures 0.0 <= EmissionDelay(effect, a, durationFactor) <= durationFactor
    ensures 0.0 <= EmissionDelay(effect, b, durationFactor) <= durationFactor
    ensures effect == DISINTEGRATION ==> EmissionDelay(effect, a, durationFactor) <= EmissionDelay(effect, b, durationFactor)
    ensures effect == ASSEMBLY ==> EmissionDelay(effect, b, durationFactor) <= EmissionDelay(effect, a, durationFactor)
  {
    if effect == DISINTEGRATION {
      DelayForward(a, b, durationFactor);
    } else {
      DelayBackward(a, b, durationFactor);
    }
  }

  lemma DelayBounds(a: real, b: real, m: real)
    requires 0.0 <= a <= b <= 1.0 && 0.0 <= m
    ensures 0.0 <= a * m <= b * m <= m
  {
    ScaleNonNegative(0.0, a, m);
    ScaleNonNegative(a, b, m);
    ScaleNonNegative(b, 1.0, m);
  }

  lemma DelayForward(a: real, b: real, durationFactor: real)
    requires 0.0 <= a <= b <= 1.0 && 0.0 <= durationFactor
    ensures 0.0 <= EmissionDelay(DISINTEGRATION, a, durationFactor) <= EmissionDelay(DISINTEGRATION, b, durationFactor) <= durationFactor
  {
    DelayBounds(a, b, durationFactor);
  }

  lemma DelayBackward(a: real, b: real, durationFactor: real)
    requires 0.0 <= a <= b <= 1.0 && 0.0 <= durationFactor
    ensures 0.0 <= EmissionDelay(ASSEMBLY, b, durationFactor) <= EmissionDelay(ASSEMBLY, a, durationFactor) <= durationFactor
  {
    DelayBounds(1.0 - b, 1.0 - a, durationFactor);
  }

  /** The guarded normalisation of `EmissionController.calculatePatternValues`:
      the value's position between the extremes, or the raw value itself when
      the range is not positive. The patterned strategy divides without the
      guard, see `PatternedEmission.NormalizedAsWritten`. */
  function NormalizedValue(value: real, lo: real, hi: real): (r: real)
    ensures hi - lo > 0.0 ==> r * (hi - lo) == value - lo
    ensures hi - lo <= 0.0 ==> r == value
  {
    if hi - lo > 0.0 then (value - lo) / (hi - lo) else value
  }

  /** A value in [0, 1] between the extremes normalises into [0, 1]. */
  lemma NormalizedInUnitRange(value: real, lo: real, hi: real)
    requires lo <= value <= hi && 0.0 <= value <= 1.0
    ensures 0.0 <= NormalizedValue(value, lo, hi) <= 1.0
  {
    if hi - lo > 0.0 {
      QuotientInUnitRange(value - lo, hi - lo);
    }
  }

  lemma QuotientInUnitRange(a: real, b: real)
    requires 0.0 <= a <= b && 0.0 < b
    ensures 0.0 <= a / b <= 1.0
  {
  }

  /** Normalisation keeps the order of the raw values. */
  lemma NormalizedMonotone(v: real, w: real, lo: real, hi: real)
    requires v <= w
    ensures NormalizedValue(v, lo, hi) <= NormalizedValue(w, lo, hi)
  {
    if hi - lo > 0.0 {
      QuotientMonotone(v - lo, w - lo, hi - lo);
    }
  }

  lemma QuotientMonotone(a: real, b: real, c: real)
    requires a <= b && 0.0 < c
    ensures a / c <= b / c
  {
    assert b / c - a / c == (b - a) / c;
  }
}
