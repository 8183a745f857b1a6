/** `PatternedEmissionStrategy` (emission/PatternedEmissionStrategy.kt): one
    particle per visible sampled pixel, released over time in the order an
    emission pattern gives the pixels. */
module PatternedEmission {
  import opened Numeric
  import opened Oracles
  import opened Vectors
  import opened Config
  import opened Pixels
  import opened Environment
  import opened Sampling
  import opened Patterns
  import opened Particles

  /** The smallest raw pattern value over `points`, starting from the seed
      `Float.MAX_VALUE` (`if (patternValue < minValue) minValue = patternValue`). */
  function Lowest(pattern: EmissionPattern, points: seq<Point>, width: int, height: int, sqrt: real -> real): real
    requires IsSqrt(sqrt) && width > 0 && height > 0
  {
    if |points| == 0 then FLOAT_MAX_VALUE
    else
      var m := Lowest(pattern, points[..|points| - 1], width, height, sqrt);
      var last := points[|points| - 1];
      var v := PatternValue(pattern, last.x, last.y, width, height, sqrt);
      if v < m then v else m
  }

  /** The largest raw pattern value over `points`, starting from the seed
      `Float.MIN_VALUE` (the smallest positive float). */
  function Highest(pattern: EmissionPattern, points: seq<Point>, width: int, height: int, sqrt: real -> real): real
    requires IsSqrt(sqrt) && width > 0 && height > 0
  {
    if |points| == 0 then FLOAT_MIN_VALUE
    else
      var m := Highest(pattern, points[..|points| - 1], width, height, sqrt);
      var last := points[|points| - 1];
      var v := PatternValue(pattern, last.x, last.y, width, height, sqrt);
      if v > m then v else m
  }

  /** Every value lies between the two extremes, which never pass their seeds. */
  lemma {:induction false} ExtremesBracket(pattern: EmissionPattern, points: seq<Point>, width: int, height: int,
                                            sqrt: real -> real)
    requires IsSqrt(sqrt) && width > 0 && height > 0
    ensures Lowest(pattern, points, width, height, sqrt) <= FLOAT_MAX_VALUE
    ensures FLOAT_MIN_VALUE <= Highest(pattern, points, width, height, sqrt)
    ensures forall pt :: pt in points ==>
      Lowest(pattern, points, width, height, sqrt) <= PatternValue(pattern, pt.x, pt.y, width, height, sqrt)
                                                   <= Highest(pattern, points, width, height, sqrt)
    decreases |points|
  {
    if |points| > 0 {
      var init := points[..|points| - 1];
      ExtremesBracket(pattern, init, width, height, sqrt);
      assert points == init + [points[|points| - 1]];
    }
  }

  /** The normalisation of `generateParticles` as written: `(value - minValue) /
      valueRange` with no guard. A
      zero range is a float division 0/0, which is NaN: modelled as `None`. */
  function NormalizedAsWritten(value: real, lo: real, hi: real): (r: Option<real>)
    ensures r.None? <==> hi - lo == 0.0
    ensures r.Some? ==> r.value * (hi - lo) == value - lo
  {
    if hi - lo == 0.0 then None else Some((value - lo) / (hi - lo))
  }

  /** A bitmap of a single opaque pixel, emitted right to left: the only sampled
      pixel has raw value 1, so both extremes are 1, the range is 0 and the
      particle's normalised value (hence its delay) is NaN as written, while the
      corrected normalisation gives 1. */
  lemma SinglePixelRangeIsZero(sqrt: real -> real, particleCount: int)
    requires IsSqrt(sqrt)
    ensures var bitmap := Bitmap(1, 1, (x: int, y: int) => WHITE);
      var step := StepSize(particleCount, 1, 1, sqrt);
      var grid := Grid(0, 1, 1, step);
      && Samples(bitmap, step) == [Point(0, 0)]
      && PatternValue(RIGHT_TO_LEFT, 0, 0, 1, 1, sqrt) == 1.0
      && Lowest(RIGHT_TO_LEFT, grid, 1, 1, sqrt) == 1.0
      && Highest(RIGHT_TO_LEFT, grid, 1, 1, sqrt) == 1.0
      && NormalizedAsWritten(1.0, 1.0, 1.0) == None
      && NormalizedValue(1.0, 1.0, 1.0) == 1.0
  {
    var step := StepSize(particleCount, 1, 1, sqrt);
    SinglePixelGrid(step);
    var grid := Grid(0, 1, 1, step);
    assert grid[..0] == [];
  }

  /** On a 1x1 bitmap every step visits the one pixel, and keeps it when opaque. */
  lemma SinglePixelGrid(step: int)
    requires step >= 1
    ensures Grid(0, 1, 1, step) == [Point(0, 0)]
    ensures Kept(Bitmap(1, 1, (x: int, y: int) => WHITE), [Point(0, 0)]) == [Point(0, 0)]
  {
    assert Column(0, 0, 1, step) == [Point(0, 0)];
    assert Grid(step, 1, 1, step) == [];
    assert [Point(0, 0)][..0] == [];
  }

  /** Whenever the unguarded division is defined on a non-negative range, the
      corrected normalisation gives the same value. */
  lemma CorrectionAgreesWhereDefined(value: real, lo: real, hi: real)
    requires lo <= hi
    ensures NormalizedAsWritten(value, lo, hi).Some? ==> NormalizedAsWritten(value, lo, hi).value == NormalizedValue(value, lo, hi)
  {
  }

  /** Every sampled pixel gets a delay in [0, durationFactor], and the delays
      follow the pattern: forward when disintegrating, backward when assembling. */
  lemma DelaysFollowPattern(pattern: EmissionPattern, effect: ParticleEffect, width: int, height: int, step: int,
                            durationFactor: real, sqrt: real -> real, p: Point, q: Point)
    requires IsSqrt(sqrt) && width > 0 && height > 0 && step >= 1 && 0.0 <= durationFactor
    requires p in Grid(0, width, height, step) && q in Grid(0, width, height, step)
    requires PatternValue(pattern, p.x, p.y, width, height, sqrt) <= PatternValue(pattern, q.x, q.y, width, height, sqrt)
    ensures var grid := Grid(0, width, height, step);
      var lo, hi := Lowest(pattern, grid, width, height, sqrt), Highest(pattern, grid, width, height, sqrt);
      var dp := EmissionDelay(effect, NormalizedValue(PatternValue(pattern, p.x, p.y, width, height, sqrt), lo, hi), durationFactor);
      var dq := EmissionDelay(effect, NormalizedValue(PatternValue(pattern, q.x, q.y, width, height, sqrt), lo, hi), durationFactor);
      && 0.0 <= dp <= durationFactor && 0.0 <= dq <= durationFactor
      && (effect == DISINTEGRATION ==> dp <= dq)
      && (effect == ASSEMBLY ==> dq <= dp)
  {
    var grid := Grid(0, width, height, step);
    var lo, hi := Lowest(pattern, grid, width, height, sqrt), Highest(pattern, grid, width, height, sqrt);
    var vp := PatternValue(pattern, p.x, p.y, width, height, sqrt);
    var vq := PatternValue(pattern, q.x, q.y, width, height, sqrt);
    GridMembers(0, width, height, step, p);
    GridMembers(0, width, height, step, q);
    PatternValueInUnitRange(pattern, p.x, p.y, width, height, sqrt);
    PatternValueInUnitRange(pattern, q.x, q.y, width, height, sqrt);
    ExtremesBracket(pattern, grid, width, height, sqrt);
    NormalizedInUnitRange(vp, lo, hi);
    NormalizedInUnitRange(vq, lo, hi);
    NormalizedMonotone(vp, vq, lo, hi);
    EmissionDelayOrder(effect, NormalizedValue(vp, lo, hi), NormalizedValue(vq, lo, hi), durationFactor);
  }

  /** Where particle number k starts: on its pixel when disintegrating; when
      assembling, `normalized * 200` pixels away in a random direction. */
  function StartPosition(effect: ParticleEffect, pt: Point, normalized: real, k: int, env: Env): Vector2
  {
    match effect
    case DISINTEGRATION => Vector2(pt.x as real, pt.y as real)
    case ASSEMBLY =>
      var distance := normalized * 200.0;
      var angle := env.rand(k, CH_PATTERNED_ANGLE) * 2.0 * PI;
      Vector2(pt.x as real + env.cos(angle) * distance, pt.y as real + env.sin(angle) * distance)
  }

  /** The start lies within 200 pixels of the pixel on each axis. */
  lemma StartNearPixel(effect: ParticleEffect, pt: Point, normalized: real, k: int, env: Env)
    requires env.Valid() && 0.0 <= normalized <= 1.0
    ensures var p := StartPosition(effect, pt, normalized, k, env);
      -200.0 <= p.x - pt.x as real <= 200.0 && -200.0 <= p.y - pt.y as real <= 200.0
  {
    if effect == ASSEMBLY {
      var distance := normalized * 200.0;
      var angle := env.rand(k, CH_PATTERNED_ANGLE) * 2.0 * PI;
      UnitTimesBounded(env.cos(angle), distance, 200.0);
      UnitTimesBounded(env.sin(angle), distance, 200.0);
    }
  }

  lemma UnitTimesBounded(u: real, d: real, bound: real)
    requires -1.0 <= u <= 1.0 && 0.0 <= d <= bound
    ensures -bound <= u * d <= bound
  {
    ScaleNonNegative(u, 1.0, d);
    assert u * d <= d;
    ScaleNonNegative(-1.0, u, d);
    assert -d <= u * d;
  }

  /** Disintegrating particles get a random velocity, assembling ones none. */
  function StartVelocity(effect: ParticleEffect, k: int, particleConfig: ParticleConfig, env: Env): Vector2
  {
    match effect
    case DISINTEGRATION => env.randomVector(k, particleConfig.velocityMagnitude)
    case ASSEMBLY => ZERO
  }

  /** The map the first pass fills: every visited pixel to its raw pattern
      value (a later visit of the same pixel overwrites an earlier one). */
  function PatternValues(pattern: EmissionPattern, points: seq<Point>, width: int, height: int,
                         sqrt: real -> real): map<Point, real>
    requires IsSqrt(sqrt) && width > 0 && height > 0
  {
    if |points| == 0 then map[]
    else
      var last := points[|points| - 1];
      PatternValues(pattern, points[..|points| - 1], width, height, sqrt)[last := PatternValue(pattern, last.x, last.y, width, height, sqrt)]
  }

  /** The map holds exactly the visited pixels, each with its own pattern value. */
  lemma {:induction false} PatternValuesRecorded(pattern: EmissionPattern, points: seq<Point>, width: int, height: int,
                                                 sqrt: real -> real)
    requires IsSqrt(sqrt) && width > 0 && height > 0
    ensures var values := PatternValues(pattern, points, width, height, sqrt);
      forall pt :: pt in values <==> pt in points
    ensures var values := PatternValues(pattern, points, width, height, sqrt);
      forall pt :: pt in points ==> values[pt] == PatternValue(pattern, pt.x, pt.y, width, height, sqrt)
    decreases |points|
  {
    if |points| > 0 {
      var init := points[..|points| - 1];
      PatternValuesRecorded(pattern, init, width, height, sqrt);
      assert points == init + [points[|points| - 1]];
    }
  }

  /** The per-emission constants of one `generateParticles` call: the inputs,
      the first pass's map and its extremes. */
  datatype Emission = Emission(
    bitmap: Bitmap,
    particleConfig: ParticleConfig,
    durationFactor: real,
    effect: ParticleEffect,
    patternValues: map<Point, real>,
    lo: real,
    hi: real,
    env: Env)

  /** Particle p is the k-th one emitted, for sampled pixel pt. */
  ghost predicate Emitted(p: Particle, k: int, pt: Point, e: Emission)
    reads p
  {
    && pt in e.patternValues
    && var normalized := NormalizedValue(e.patternValues[pt], e.lo, e.hi);
    && p.originalX == pt.x as real && p.originalY == pt.y as real
    && p.position == StartPosition(e.effect, pt, normalized, k, e.env)
    && p.velocity == StartVelocity(e.effect, k, e.particleConfig, e.env)
    && p.acceleration == ZERO
    && p.color == e.bitmap.pixel(pt.x, pt.y)
    && p.alpha == 1.0 && p.scale == 1.0 && p.rotation == 0.0
    && p.shape == e.particleConfig.shape
    && p.size == e.particleConfig.size * (0.5 + e.env.rand(k, CH_PATTERNED_SIZE))
    && p.lifetime == 1.0 && p.mass == 1.0
    && p.delay == EmissionDelay(e.effect, normalized, e.durationFactor)
    && p.friction == e.particleConfig.friction
    && p.isActive
  }

  /** `particles` are the ones emitted, in order, for the pixels `kept`. */
  ghost predicate EmittedAll(particles: seq<Particle>, kept: seq<Point>, e: Emission)
    reads set k | 0 <= k < |particles| :: particles[k]
  {
    && |particles| == |kept|
    && forall k :: 0 <= k < |particles| ==> Emitted(particles[k], k, kept[k], e)
  }

  lemma EmittedAppend(particles: seq<Particle>, kept: seq<Point>, p: Particle, pt: Point, e: Emission)
    requires EmittedAll(particles, kept, e) && Emitted(p, |particles|, pt, e)
    ensures EmittedAll(particles + [p], kept + [pt], e)
  {
  }

  /** No particle object appears twice. */
  predicate Distinct(particles: seq<Particle>)
  {
    forall i, j :: 0 <= i < j < |particles| ==> particles[i] != particles[j]
  }

  /** `generateParticles`: a first pass over the sampling grid records every
      pixel's pattern value and their extremes; a second pass emits a particle
      for every visible pixel with a delay from its normalised value. */
  method GenerateParticles(bitmap: Bitmap, pattern: EmissionPattern, particleConfig: ParticleConfig,
                           emissionConfig: EmissionConfig, effect: ParticleEffect, env: Env)
    returns (particles: seq<Particle>)
    requires bitmap.Valid() && env.Valid()
    ensures var step := StepSize(emissionConfig.particleCount, bitmap.width, bitmap.height, env.sqrt);
      var grid := Grid(0, bitmap.width, bitmap.height, step);
      EmittedAll(particles, Samples(bitmap, step), Measured(bitmap, pattern, particleConfig, emissionConfig, effect, env))
    ensures forall k :: 0 <= k < |particles| ==> fresh(particles[k])
    ensures Distinct(particles)
  {
    var width := bitmap.width;
    var height := bitmap.height;
    var stepSize := StepSize(emissionConfig.particleCount, width, height, env.sqrt);
    ghost var grid := Grid(0, width, height, stepSize);

    var patternValues, minValue, maxValue := MeasurePattern(pattern, width, height, stepSize, env.sqrt);
    var e := Emission(bitmap, particleConfig, emissionConfig.durationFactor, effect, patternValues, minValue, maxValue, env);
    PatternValuesRecorded(pattern, grid, width, height, env.sqrt);
    particles := EmitAll(e, stepSize, grid);
  }

  /** The emission record of one call: the first pass run over the sampling grid. */
  ghost function Measured(bitmap: Bitmap, pattern: EmissionPattern, particleConfig: ParticleConfig,
                          emissionConfig: EmissionConfig, effect: ParticleEffect, env: Env): Emission
    requires bitmap.Valid() && env.Valid()
  {
    var step := StepSize(emissionConfig.particleCount, bitmap.width, bitmap.height, env.sqrt);
    var grid := Grid(0, bitmap.width, bitmap.height, step);
    Emission(bitmap, particleConfig, emissionConfig.durationFactor, effect,
             PatternValues(pattern, grid, bitmap.width, bitmap.height, env.sqrt),
             Lowest(pattern, grid, bitmap.width, bitmap.height, env.sqrt),
             Highest(pattern, grid, bitmap.width, bitmap.height, env.sqrt), env)
  }

  /** What `generateParticles` promises about the delays it hands out: each lies
      in [0, durationFactor], and a particle whose pixel comes no later in the
      pattern is released no later when disintegrating and no earlier when
      assembling. */
  lemma EmittedDelaysFollowPattern(particles: seq<Particle>, bitmap: Bitmap, pattern: EmissionPattern,
                                   particleConfig: ParticleConfig, emissionConfig: EmissionConfig,
                                   effect: ParticleEffect, env: Env, i: int, j: int)
    requires bitmap.Valid() && env.Valid() && 0.0 <= emissionConfig.durationFactor
    requires EmittedAll(particles, Samples(bitmap, StepSize(emissionConfig.particleCount, bitmap.width, bitmap.height, env.sqrt)),
                        Measured(bitmap, pattern, particleConfig, emissionConfig, effect, env))
    requires 0 <= i < |particles| && 0 <= j < |particles|
    requires var kept := Samples(bitmap, StepSize(emissionConfig.particleCount, bitmap.width, bitmap.height, env.sqrt));
      PatternValue(pattern, kept[i].x, kept[i].y, bitmap.width, bitmap.height, env.sqrt)
        <= PatternValue(pattern, kept[j].x, kept[j].y, bitmap.width, bitmap.height, env.sqrt)
    ensures 0.0 <= particles[i].delay <= emissionConfig.durationFactor
    ensures effect == DISINTEGRATION ==> particles[i].delay <= particles[j].delay
    ensures effect == ASSEMBLY ==> particles[j].delay <= particles[i].delay
  {
    var step := StepSize(emissionConfig.particleCount, bitmap.width, bitmap.height, env.sqrt);
    var grid := Grid(0, bitmap.width, bitmap.height, step);
    var kept := Samples(bitmap, step);
    KeptMembers(bitmap, grid, kept[i]);
    KeptMembers(bitmap, grid, kept[j]);
    PatternValuesRecorded(pattern, grid, bitmap.width, bitmap.height, env.sqrt);
    assert Emitted(particles[i], i, kept[i], Measured(bitmap, pattern, particleConfig, emissionConfig, effect, env));
    assert Emitted(particles[j], j, kept[j], Measured(bitmap, pattern, particleConfig, emissionConfig, effect, env));
    DelaysFollowPattern(pattern, effect, bitmap.width, bitmap.height, step, emissionConfig.durationFactor, env.sqrt,
                        kept[i], kept[j]);
  }

  /** The second pass: the nested loops over the grid, emitting for visible pixels. */
  method EmitAll(e: Emission, stepSize: int, ghost grid: seq<Point>) returns (particles: seq<Particle>)
    requires e.bitmap.Valid() && stepSize >= 1
    requires grid == Grid(0, e.bitmap.width, e.bitmap.height, stepSize)
    requires forall pt :: pt in grid ==> pt in e.patternValues
    ensures EmittedAll(particles, Kept(e.bitmap, grid), e)
    ensures forall k :: 0 <= k < |particles| ==> fresh(particles[k])
    ensures Distinct(particles)
  {
    particles := [];
    ghost var visited: seq<Point> := [];
    var x := 0;
    while x < e.bitmap.width
      invariant visited + Grid(x, e.bitmap.width, e.bitmap.height, stepSize) == grid
      invariant EmittedAll(particles, Kept(e.bitmap, visited), e)
      invariant forall k :: 0 <= k < |particles| ==> fresh(particles[k])
      invariant Distinct(particles)
      decreases e.bitmap.width - x
    {
      ghost var column := Column(x, 0, e.bitmap.height, stepSize);
      GridStep(x, e.bitmap.width, e.bitmap.height, stepSize, visited);
      forall pt | pt in visited + column
        ensures pt in grid
      {
        assert pt in (visited + column) + Grid(x + stepSize, e.bitmap.width, e.bitmap.height, stepSize);
      }
      particles := EmitColumn(e, x, stepSize, visited, particles);
      visited := visited + column;
      x := x + stepSize;
    }
    assert visited == grid;
  }

  /** The first pass: pattern values of the whole grid and their extremes. */
  method MeasurePattern(pattern: EmissionPattern, width: int, height: int, stepSize: int, sqrt: real -> real)
    returns (patternValues: map<Point, real>, minValue: real, maxValue: real)
    requires IsSqrt(sqrt) && width > 0 && height > 0 && stepSize >= 1
    ensures patternValues == PatternValues(pattern, Grid(0, width, height, stepSize), width, height, sqrt)
    ensures minValue == Lowest(pattern, Grid(0, width, height, stepSize), width, height, sqrt)
    ensures maxValue == Highest(pattern, Grid(0, width, height, stepSize), width, height, sqrt)
  {
    patternValues := map[];
    minValue := FLOAT_MAX_VALUE;
    maxValue := FLOAT_MIN_VALUE;
    ghost var grid := Grid(0, width, height, stepSize);
    ghost var visited: seq<Point> := [];
    var x := 0;
    while x < width
      invariant visited + Grid(x, width, height, stepSize) == grid
      invariant patternValues == PatternValues(pattern, visited, width, height, sqrt)
      invariant minValue == Lowest(pattern, visited, width, height, sqrt)
      invariant maxValue == Highest(pattern, visited, width, height, sqrt)
      decreases width - x
    {
      ghost var column := Column(x, 0, height, stepSize);
      GridStep(x, width, height, stepSize, visited);
      patternValues, minValue, maxValue := MeasureColumn(pattern, x, width, height, stepSize, sqrt, visited,
                                                         patternValues, minValue, maxValue);
      visited := visited + column;
      x := x + stepSize;
    }
    assert visited == grid;
  }

  /** The first pass's inner loop over column x. */
  method MeasureColumn(pattern: EmissionPattern, x: int, width: int, height: int, stepSize: int, sqrt: real -> real,
                       ghost visited: seq<Point>, values: map<Point, real>, lo: real, hi: real)
    returns (patternValues: map<Point, real>, minValue: real, maxValue: real)
    requires IsSqrt(sqrt) && width > 0 && height > 0 && stepSize >= 1
    requires values == PatternValues(pattern, visited, width, height, sqrt)
    requires lo == Lowest(pattern, visited, width, height, sqrt) && hi == Highest(pattern, visited, width, height, sqrt)
    ensures var done := visited + Column(x, 0, height, stepSize);
      && patternValues == PatternValues(pattern, done, width, height, sqrt)
      && minValue == Lowest(pattern, done, width, height, sqrt)
      && maxValue == Highest(pattern, done, width, height, sqrt)
  {
    patternValues, minValue, maxValue := values, lo, hi;
    ghost var done := visited;
    var y := 0;
    while y < height
      invariant done + Column(x, y, height, stepSize) == visited + Column(x, 0, height, stepSize)
      invariant patternValues == PatternValues(pattern, done, width, height, sqrt)
      invariant minValue == Lowest(pattern, done, width, height, sqrt)
      invariant maxValue == Highest(pattern, done, width, height, sqrt)
      decreases height - y
    {
      var patternValue := PatternValue(pattern, x, y, width, height, sqrt);
      patternValues := patternValues[Point(x, y) := patternValue];
      ghost var next := done + [Point(x, y)];
      assert next[..|next| - 1] == done;
      if patternValue < minValue {
        minValue := patternValue;
      }
      if patternValue > maxValue {
        maxValue := patternValue;
      }
      done := next;
      y := y + stepSize;
    }
    assert done == visited + Column(x, 0, height, stepSize);
  }

  /** The particle `generateParticles` creates as the k-th one, for visible pixel pt. */
  method EmitPixel(e: Emission, k: int, pt: Point) returns (particle: Particle)
    requires pt in e.patternValues
    ensures fresh(particle)
    ensures Emitted(particle, k, pt, e)
  {
    var normalizedValue := NormalizedValue(e.patternValues[pt], e.lo, e.hi);
    var delay := EmissionDelay(e.effect, normalizedValue, e.durationFactor);
    var initialPosition := StartPosition(e.effect, pt, normalizedValue, k, e.env);
    var initialVelocity := StartVelocity(e.effect, k, e.particleConfig, e.env);
    particle := new Particle(pt.x as real, pt.y as real, initialPosition, initialVelocity, e.bitmap.pixel(pt.x, pt.y),
                             e.particleConfig.shape, e.particleConfig.size * (0.5 + e.env.rand(k, CH_PATTERNED_SIZE)),
                             delay, e.particleConfig.friction);
  }

  /** The second pass's inner loop over column x. */
  method EmitColumn(e: Emission, x: int, stepSize: int, ghost visited: seq<Point>, particles: seq<Particle>)
    returns (out: seq<Particle>)
    requires stepSize >= 1
    requires forall pt :: pt in visited + Column(x, 0, e.bitmap.height, stepSize) ==> pt in e.patternValues
    requires EmittedAll(particles, Kept(e.bitmap, visited), e)
    requires Distinct(particles)
    ensures EmittedAll(out, Kept(e.bitmap, visited + Column(x, 0, e.bitmap.height, stepSize)), e)
    ensures |particles| <= |out| && out[..|particles|] == particles
    ensures forall k :: |particles| <= k < |out| ==> fresh(out[k])
    ensures Distinct(out)
  {
    out := particles;
    ghost var done := visited;
    var y := 0;
    while y < e.bitmap.height
      invariant done + Column(x, y, e.bitmap.height, stepSize) == visited + Column(x, 0, e.bitmap.height, stepSize)
      invariant EmittedAll(out, Kept(e.bitmap, done), e)
      invariant |particles| <= |out| && out[..|particles|] == particles
      invariant forall k :: |particles| <= k < |out| ==> fresh(out[k])
      invariant Distinct(out)
      decreases e.bitmap.height - y
    {
      ghost var next := done + [Point(x, y)];
      ColumnStep(x, y, e.bitmap.height, stepSize, done);
      assert Point(x, y) in next + Column(x, y + stepSize, e.bitmap.height, stepSize);
      ghost var before := out;
      out := EmitPoint(e, x, y, done, out);
      assert out[..|particles|] == out[..|before|][..|particles|];
      done := next;
      y := y + stepSize;
    }
    assert done == visited + Column(x, 0, e.bitmap.height, stepSize);
  }

  /** One step of the second pass's inner loop: pixel (x, y) yields a particle
      when it is visible. */
  method EmitPoint(e: Emission, x: int, y: int, ghost done: seq<Point>, out: seq<Particle>) returns (result: seq<Particle>)
    requires Point(x, y) in e.patternValues
    requires EmittedAll(out, Kept(e.bitmap, done), e)
    requires Distinct(out)
    ensures EmittedAll(result, Kept(e.bitmap, done + [Point(x, y)]), e)
    ensures |out| <= |result| <= |out| + 1 && result[..|out|] == out
    ensures forall k :: |out| <= k < |result| ==> fresh(result[k])
    ensures Distinct(result)
  {
    var pixel := e.bitmap.pixel(x, y);
    ghost var kept := Kept(e.bitmap, done);
    ghost var next := done + [Point(x, y)];
    assert next[..|next| - 1] == done;
    if Visible(pixel) {
      var particle := EmitPixel(e, |out|, Point(x, y));
      EmittedAppend(out, kept, particle, Point(x, y), e);
      result := out + [particle];
      assert Kept(e.bitmap, next) == kept + [Point(x, y)];
    } else {
      result := out;
      assert Kept(e.bitmap, next) == kept;
    }
  }
}
