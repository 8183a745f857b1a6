/** `EmissionController` (emission/EmissionController.kt): the per-particle
    random variation of the store's slots, their launch velocities, and the
    pattern-driven release schedule written into the store's delay and flag
    columns. */
module EmissionControl {
  import opened Numeric
  import opened Oracles
  import opened Vectors
  import opened Config
  import opened Pixels
  import opened Environment
  import opened Patterns
  import opened Storage

  /** The colour after the brightness shift: red, green and blue moved by the
      same amount and clamped to [0, 1], alpha untouched. */
  function Brightened(c: Rgba, shift: real): (r: Rgba)
    ensures 0.0 <= r.red <= 1.0 && 0.0 <= r.green <= 1.0 && 0.0 <= r.blue <= 1.0
    ensures r.alpha == c.alpha
    ensures 0.0 <= c.red <= 1.0 ==> Abs(r.red - c.red) <= Abs(shift)
    ensures 0.0 <= c.green <= 1.0 ==> Abs(r.green - c.green) <= Abs(shift)
    ensures 0.0 <= c.blue <= 1.0 ==> Abs(r.blue - c.blue) <= Abs(shift)
  {
    Rgba(Clamp(c.red + shift, 0.0, 1.0), Clamp(c.green + shift, 0.0, 1.0), Clamp(c.blue + shift, 0.0, 1.0), c.alpha)
  }

  /** The size after the optional size variation: 0.6 to 1.4 times the base. */
  function VariedSize(config: EmissionConfig, size: real, k: int, env: Env): (r: real)
    requires env.Valid()
    ensures !config.randomSizes ==> r == size
    ensures config.randomSizes && 0.0 <= size ==> 0.6 * size <= r <= 1.4 * size
  {
    var sizeVariation := 0.6 + env.rand(k, CH_EMIT_SIZE) * 0.8;
    VariationBounds(size, env.rand(k, CH_EMIT_SIZE));
    if config.randomSizes then size * sizeVariation else size
  }

  /** The alpha after the optional alpha variation: redrawn in [0.6, 1). */
  function VariedAlpha(config: EmissionConfig, alpha: real, k: int, env: Env): (r: real)
    requires env.Valid()
    ensures !config.randomAlphas ==> r == alpha
    ensures config.randomAlphas ==> 0.6 <= r < 1.0
  {
    if config.randomAlphas then 0.6 + env.rand(k, CH_EMIT_ALPHA) * 0.4 else alpha
  }

  /** The colour after the optional colour variation: a brightness shift in
      [-0.1, 0.1). The hue and saturation shifts the source also draws are
      never applied. */
  function VariedColor(config: EmissionConfig, color: Rgba, k: int, env: Env): (r: Rgba)
    requires env.Valid()
    ensures !config.randomizeColors ==> r == color
    ensures config.randomizeColors ==> r.alpha == color.alpha
    ensures config.randomizeColors ==> 0.0 <= r.red <= 1.0 && 0.0 <= r.green <= 1.0 && 0.0 <= r.blue <= 1.0
    ensures config.randomizeColors && 0.0 <= color.red <= 1.0 ==> Abs(r.red - color.red) <= 0.1
    ensures config.randomizeColors && 0.0 <= color.green <= 1.0 ==> Abs(r.green - color.green) <= 0.1
    ensures config.randomizeColors && 0.0 <= color.blue <= 1.0 ==> Abs(r.blue - color.blue) <= 0.1
  {
    var brightnessShift := env.rand(k, CH_EMIT_BRIGHTNESS) * 0.2 - 0.1;
    if config.randomizeColors then Brightened(color, brightnessShift) else color
  }

  /** The rotation after the optional rotation variation: redrawn in [0, 360). */
  function VariedRotation(config: EmissionConfig, rotation: real, k: int, env: Env): (r: real)
    requires env.Valid()
    ensures !config.randomRotations ==> r == rotation
    ensures config.randomRotations ==> 0.0 <= r < 360.0
  {
    if config.randomRotations then env.rand(k, CH_EMIT_ROTATION) * 360.0 else rotation
  }

  /** The slot after `applyRandomVisualProperties` for store index k: size,
      alpha, colour and rotation varied, everything else as it was. */
  function Varied(config: EmissionConfig, s: Slot, k: int, env: Env): Slot
    requires env.Valid()
  {
    s.(size := VariedSize(config, s.size, k, env), alpha := VariedAlpha(config, s.alpha, k, env),
       color := VariedColor(config, s.color, k, env), rotation := VariedRotation(config, s.rotation, k, env))
  }

  /** A size scaled by 0.6 + 0.8u, u in [0, 1), stays within [0.6, 1.4] of itself. */
  lemma VariationBounds(size: real, u: real)
    requires 0.0 <= u < 1.0
    ensures 0.0 <= size ==> 0.6 * size <= size * (0.6 + u * 0.8) <= 1.4 * size
  {
    if 0.0 <= size {
      ScaleNonNegative(0.6, 0.6 + u * 0.8, size);
      ScaleNonNegative(0.6 + u * 0.8, 1.4, size);
    }
  }

  /** The launch speed `initializeVelocities` draws: half to one and a half
      times the base velocity. */
  function LaunchSpeed(baseVelocity: real, k: int, env: Env): (speed: real)
    requires env.Valid()
    ensures 0.0 <= baseVelocity ==> 0.5 * baseVelocity <= speed <= 1.5 * baseVelocity
  {
    var speedVariation := 0.5 + env.rand(k, CH_EMIT_SPEED) * 1.0;
    SpeedBounds(baseVelocity, speedVariation);
    baseVelocity * speedVariation
  }

  lemma SpeedBounds(baseVelocity: real, variation: real)
    requires 0.5 <= variation <= 1.5
    ensures 0.0 <= baseVelocity ==> 0.5 * baseVelocity <= baseVelocity * variation <= 1.5 * baseVelocity
  {
    if 0.0 <= baseVelocity {
      ScaleNonNegative(0.5, variation, baseVelocity);
      ScaleNonNegative(variation, 1.5, baseVelocity);
    }
  }

  /** The direction `initializeVelocities` draws, in radians. */
  function LaunchAngle(k: int, env: Env): real
  {
    env.rand(k, CH_EMIT_ANGLE) * 2.0 * PI
  }

  /** The launch velocity: the launch speed along the drawn angle. */
  function LaunchVelocity(baseVelocity: real, k: int, env: Env): Vector2
    requires env.Valid()
  {
    var speed := LaunchSpeed(baseVelocity, k, env);
    Vector2(env.cos(LaunchAngle(k, env)) * speed, env.sin(LaunchAngle(k, env)) * speed)
  }

  /** The launch velocity's length is exactly the launch speed, and each of its
      components is at most 1.5 times the base velocity in magnitude. */
  lemma LaunchVelocityBounds(baseVelocity: real, k: int, env: Env)
    requires env.Valid()
    ensures LengthSquared(LaunchVelocity(baseVelocity, k, env)) == LaunchSpeed(baseVelocity, k, env) * LaunchSpeed(baseVelocity, k, env)
    ensures 0.0 <= baseVelocity ==>
      Abs(LaunchVelocity(baseVelocity, k, env).x) <= 1.5 * baseVelocity && Abs(LaunchVelocity(baseVelocity, k, env).y) <= 1.5 * baseVelocity
  {
    var angle := LaunchAngle(k, env);
    var speed := LaunchSpeed(baseVelocity, k, env);
    var c, s := env.cos(angle), env.sin(angle);
    assert -1.0 <= c <= 1.0 && -1.0 <= s <= 1.0 && s * s + c * c == 1.0;
    DirectedSpeed(c, s, speed, baseVelocity);
    assert LaunchVelocity(baseVelocity, k, env) == Vector2(c * speed, s * speed);
  }

  lemma DirectedSpeed(c: real, s: real, speed: real, baseVelocity: real)
    requires -1.0 <= c <= 1.0 && -1.0 <= s <= 1.0 && s * s + c * c == 1.0
    requires 0.0 <= baseVelocity ==> 0.5 * baseVelocity <= speed <= 1.5 * baseVelocity
    ensures LengthSquared(Vector2(c * speed, s * speed)) == speed * speed
    ensures 0.0 <= baseVelocity ==> Abs(c * speed) <= 1.5 * baseVelocity && Abs(s * speed) <= 1.5 * baseVelocity
  {
    RotatedLength(c, s, speed);
    if 0.0 <= baseVelocity {
      UnitScaled(c, speed);
      UnitScaled(s, speed);
    }
  }

  lemma RotatedLength(c: real, s: real, speed: real)
    requires s * s + c * c == 1.0
    ensures (c * speed) * (c * speed) + (s * speed) * (s * speed) == speed * speed
  {
    assert (c * speed) * (c * speed) + (s * speed) * (s * speed) == (s * s + c * c) * (speed * speed);
  }

  lemma UnitScaled(u: real, speed: real)
    requires -1.0 <= u <= 1.0 && 0.0 <= speed
    ensures Abs(u * speed) <= speed
  {
    ScaleNonNegative(u, 1.0, speed);
    assert u * speed <= speed;
    ScaleNonNegative(-1.0, u, speed);
    assert -speed <= u * speed;
  }

  /** The raw pattern value of every particle, from its original position
      truncated to whole pixels (`originalX[i].toInt()`). */
  function RawPatternValues(xs: seq<real>, ys: seq<real>, pattern: EmissionPattern, width: int, height: int,
                            sqrt: real -> real): (raw: seq<real>)
    requires |xs| == |ys| && IsSqrt(sqrt) && width > 0 && height > 0
    ensures |raw| == |xs|
  {
    seq(|xs|, i requires 0 <= i < |xs| => PatternValue(pattern, Trunc(xs[i]), Trunc(ys[i]), width, height, sqrt))
  }

  /** The smallest value, starting from the seed `Float.MAX_VALUE`. */
  function Least(values: seq<real>): real
  {
    if |values| == 0 then FLOAT_MAX_VALUE
    else
      var m := Least(values[..|values| - 1]);
      var v := values[|values| - 1];
      if v < m then v else m
  }

  /** The largest value, starting from the seed `Float.MIN_VALUE` (the smallest
      positive float). */
  function Greatest(values: seq<real>): real
  {
    if |values| == 0 then FLOAT_MIN_VALUE
    else
      var m := Greatest(values[..|values| - 1]);
      var v := values[|values| - 1];
      if v > m then v else m
  }

  /** Every value lies between the two extremes. */
  lemma {:induction false} ExtremesBracketValues(values: seq<real>)
    ensures forall i :: 0 <= i < |values| ==> Least(values) <= values[i] <= Greatest(values)
    decreases |values|
  {
    if |values| > 0 {
      var init := values[..|values| - 1];
      ExtremesBracketValues(init);
      assert forall i :: 0 <= i < |init| ==> init[i] == values[i];
    }
  }

  /** What `calculatePatternValues` returns: the raw values, normalised by
      their extremes when those differ. */
  function NormalizedPatternValues(xs: seq<real>, ys: seq<real>, pattern: EmissionPattern, width: int, height: int,
                                   sqrt: real -> real): (n: seq<real>)
    requires |xs| == |ys| && IsSqrt(sqrt) && width > 0 && height > 0
    ensures |n| == |xs|
  {
    var raw := RawPatternValues(xs, ys, pattern, width, height, sqrt);
    var lo, hi := Least(raw), Greatest(raw);
    seq(|raw|, i requires 0 <= i < |raw| => NormalizedValue(raw[i], lo, hi))
  }

  /** Particles whose original positions lie inside the image get normalised
      values in [0, 1]. */
  lemma NormalizedPatternValuesInUnitRange(xs: seq<real>, ys: seq<real>, pattern: EmissionPattern, width: int,
                                           height: int, sqrt: real -> real, i: int)
    requires |xs| == |ys| && IsSqrt(sqrt) && width > 0 && height > 0 && 0 <= i < |xs|
    requires 0.0 <= xs[i] < width as real && 0.0 <= ys[i] < height as real
    ensures 0.0 <= NormalizedPatternValues(xs, ys, pattern, width, height, sqrt)[i] <= 1.0
  {
    var raw := RawPatternValues(xs, ys, pattern, width, height, sqrt);
    PatternValueInUnitRange(pattern, Trunc(xs[i]), Trunc(ys[i]), width, height, sqrt);
    ExtremesBracketValues(raw);
    NormalizedInUnitRange(raw[i], Least(raw), Greatest(raw));
  }

  /** Normalisation keeps the particles' order along the pattern. */
  lemma NormalizedPatternValuesOrder(xs: seq<real>, ys: seq<real>, pattern: EmissionPattern, width: int,
                                     height: int, sqrt: real -> real, i: int, j: int)
    requires |xs| == |ys| && IsSqrt(sqrt) && width > 0 && height > 0 && 0 <= i < |xs| && 0 <= j < |xs|
    requires var raw := RawPatternValues(xs, ys, pattern, width, height, sqrt); raw[i] <= raw[j]
    ensures var n := NormalizedPatternValues(xs, ys, pattern, width, height, sqrt); n[i] <= n[j]
  {
    var raw := RawPatternValues(xs, ys, pattern, width, height, sqrt);
    NormalizedMonotone(raw[i], raw[j], Least(raw), Greatest(raw));
  }

  /** The delay `calculateDelays` gives particle i with normalised value
      `normalized`: optionally jittered by up to 30% and clamped, then turned
      into an emission delay. It lies in [0, durationFactor]. */
  function TargetDelay(config: EmissionConfig, effect: ParticleEffect, normalized: real, i: int, env: Env): (d: real)
    requires env.Valid()
    ensures 0.0 <= normalized <= 1.0 && 0.0 <= config.durationFactor ==> 0.0 <= d <= config.durationFactor
    ensures !config.randomizeDelays ==> d == EmissionDelay(effect, normalized, config.durationFactor)
  {
    var finalDelay := if config.randomizeDelays
      then Clamp(normalized * (1.0 - 0.3 + env.rand(i, CH_EMIT_DELAY) * 0.6), 0.0, 1.0)
      else normalized;
    DelayWithinFactor(effect, finalDelay, config.durationFactor);
    EmissionDelay(effect, finalDelay, config.durationFactor)
  }

  lemma DelayWithinFactor(effect: ParticleEffect, normalized: real, durationFactor: real)
    ensures 0.0 <= normalized <= 1.0 && 0.0 <= durationFactor ==>
      0.0 <= EmissionDelay(effect, normalized, durationFactor) <= durationFactor
  {
    if 0.0 <= normalized <= 1.0 && 0.0 <= durationFactor {
      EmissionDelayOrder(effect, normalized, normalized, durationFactor);
    }
  }

  /** `i < storage.particleCount * 0.05f`: the first twentieth of the particles
      start active whatever their delay. */
  predicate ForceActive(i: int, count: int)
  {
    (i as real) < (count as real) * 0.05
  }

  /** A slot after its delay is written: pending exactly when the delay is
      positive and it is not forced active, otherwise active. */
  function Scheduled(s: Slot, delay: real, forced: bool): (r: Slot)
    ensures r.active != r.pending
    ensures r.pending <==> 0.0 < delay && !forced
    ensures r == s.(delay := delay, active := r.active, pending := r.pending)
  {
    s.(delay := delay, active := !(delay > 0.0 && !forced), pending := delay > 0.0 && !forced)
  }

  /** Without delay jitter, the schedule follows the pattern: particles inside
      the image get delays in [0, durationFactor], released in pattern order
      when disintegrating and in reverse order when assembling. */
  lemma ScheduleFollowsPattern(config: EmissionConfig, effect: ParticleEffect, xs: seq<real>, ys: seq<real>,
                               pattern: EmissionPattern, width: int, height: int, env: Env, i: int, j: int)
    requires |xs| == |ys| && env.Valid() && width > 0 && height > 0 && 0 <= i < |xs| && 0 <= j < |xs|
    requires 0.0 <= xs[i] < width as real && 0.0 <= ys[i] < height as real
    requires 0.0 <= xs[j] < width as real && 0.0 <= ys[j] < height as real
    requires !config.randomizeDelays && 0.0 <= config.durationFactor
    requires var raw := RawPatternValues(xs, ys, pattern, width, height, env.sqrt); raw[i] <= raw[j]
    ensures var n := NormalizedPatternValues(xs, ys, pattern, width, height, env.sqrt);
      var di, dj := TargetDelay(config, effect, n[i], i, env), TargetDelay(config, effect, n[j], j, env);
      && 0.0 <= di <= config.durationFactor
      && (effect == DISINTEGRATION ==> di <= dj)
      && (effect == ASSEMBLY ==> dj <= di)
  {
    var n := NormalizedPatternValues(xs, ys, pattern, width, height, env.sqrt);
    NormalizedPatternValuesInUnitRange(xs, ys, pattern, width, height, env.sqrt, i);
    NormalizedPatternValuesInUnitRange(xs, ys, pattern, width, height, env.sqrt, j);
    NormalizedPatternValuesOrder(xs, ys, pattern, width, height, env.sqrt, i, j);
    EmissionDelayOrder(effect, n[i], n[j], config.durationFactor);
  }

  /** `shouldActivateParticle`: instant emission releases everything at once;
      otherwise a particle is released once the progress reaches its delay. */
  predicate Releases(config: EmissionConfig, delay: real, progress: real)
  {
    if config.emissionType == INSTANT then true else progress >= delay
  }

  /** A released particle stays released as the progress grows, and with
      delays from a schedule whose duration factor is at most 1, every particle
      of the image is released by the end of the animation (progress 1). */
  lemma ReleaseByEnd(config: EmissionConfig, effect: ParticleEffect, normalized: real, i: int, env: Env,
                     progress: real, later: real)
    requires env.Valid() && 0.0 <= normalized <= 1.0 && 0.0 <= config.durationFactor <= 1.0
    ensures Releases(config, TargetDelay(config, effect, normalized, i, env), 1.0)
    ensures progress <= later && Releases(config, TargetDelay(config, effect, normalized, i, env), progress) ==>
      Releases(config, TargetDelay(config, effect, normalized, i, env), later)
  {
    var d := TargetDelay(config, effect, normalized, i, env);
    assert d <= 1.0;
  }

  /** `class EmissionController(private val config)`. */
  class EmissionController {
    const config: EmissionConfig

    constructor(config: EmissionConfig)
      ensures this.config == config
    {
      this.config := config;
    }

    /** `shouldActivateParticle` */
    predicate ShouldActivateParticle(delay: real, progress: real)
    {
      Releases(config, delay, progress)
    }

    /** `applyRandomVisualProperties`: slot `index` becomes `Varied`; every
        other slot is untouched. */
    method ApplyRandomVisualProperties(storage: ParticleStorage, index: int, env: Env)
      requires storage.Valid() && 0 <= index < storage.capacity && env.Valid()
      modifies storage.sizes, storage.alphas, storage.colors, storage.rotations
      ensures storage.Valid()
      ensures forall i :: 0 <= i < storage.capacity ==>
        storage.At(i) == if i == index then Varied(config, old(storage.At(i)), index, env) else old(storage.At(i))
    {
      VarySize(storage, index, env);
      VaryAlpha(storage, index, env);
      VaryColor(storage, index, env);
      VaryRotation(storage, index, env);
    }

    /** The size step of `applyRandomVisualProperties`. */
    method VarySize(storage: ParticleStorage, index: int, env: Env)
      requires storage.Valid() && 0 <= index < storage.capacity && env.Valid()
      modifies storage.sizes
      ensures storage.Valid()
      ensures forall i :: 0 <= i < storage.capacity ==>
        storage.At(i) == if i == index then old(storage.At(i)).(size := VariedSize(config, old(storage.At(i)).size, index, env))
                         else old(storage.At(i))
    {
      if config.randomSizes {
        var sizeVariation := 0.6 + env.rand(index, CH_EMIT_SIZE) * 0.8;
        storage.sizes[index] := storage.sizes[index] * sizeVariation;
      }
    }

    /** The alpha step of `applyRandomVisualProperties`. */
    method VaryAlpha(storage: ParticleStorage, index: int, env: Env)
      requires storage.Valid() && 0 <= index < storage.capacity && env.Valid()
      modifies storage.alphas
      ensures storage.Valid()
      ensures forall i :: 0 <= i < storage.capacity ==>
        storage.At(i) == if i == index then old(storage.At(i)).(alpha := VariedAlpha(config, old(storage.At(i)).alpha, index, env))
                         else old(storage.At(i))
    {
      if config.randomAlphas {
        var alphaVariation := 0.6 + env.rand(index, CH_EMIT_ALPHA) * 0.4;
        storage.alphas[index] := alphaVariation;
      }
    }

    /** The colour step of `applyRandomVisualProperties`. */
    method VaryColor(storage: ParticleStorage, index: int, env: Env)
      requires storage.Valid() && 0 <= index < storage.capacity && env.Valid()
      modifies storage.colors
      ensures storage.Valid()
      ensures forall i :: 0 <= i < storage.capacity ==>
        storage.At(i) == if i == index then old(storage.At(i)).(color := VariedColor(config, old(storage.At(i)).color, index, env))
                         else old(storage.At(i))
    {
      if config.randomizeColors {
        var baseColor := storage.colors[index];
        var brightnessShift := env.rand(index, CH_EMIT_BRIGHTNESS) * 0.2 - 0.1;
        storage.colors[index] := Brightened(baseColor, brightnessShift);
      }
    }

    /** The rotation step of `applyRandomVisualProperties`. */
    method VaryRotation(storage: ParticleStorage, index: int, env: Env)
      requires storage.Valid() && 0 <= index < storage.capacity && env.Valid()
      modifies storage.rotations
      ensures storage.Valid()
      ensures forall i :: 0 <= i < storage.capacity ==>
        storage.At(i) == if i == index then old(storage.At(i)).(rotation := VariedRotation(config, old(storage.At(i)).rotation, index, env))
                         else old(storage.At(i))
    {
      if config.randomRotations {
        storage.rotations[index] := env.rand(index, CH_EMIT_ROTATION) * 360.0;
      }
    }

    /** `initializeVelocities`: slot `index` gets the launch velocity; every
        other slot and every other column is untouched. */
    method InitializeVelocities(storage: ParticleStorage, index: int, baseVelocity: real, env: Env)
      requires storage.Valid() && 0 <= index < storage.capacity && env.Valid()
      modifies storage.velocityX, storage.velocityY
      ensures storage.Valid()
      ensures forall i :: 0 <= i < storage.capacity ==>
        storage.At(i) == if i == index
          then old(storage.At(i)).(velocityX := LaunchVelocity(baseVelocity, index, env).x,
                                   velocityY := LaunchVelocity(baseVelocity, index, env).y)
          else old(storage.At(i))
    {
      var angle := env.rand(index, CH_EMIT_ANGLE) * 2.0 * PI;
      var speedVariation := 0.5 + env.rand(index, CH_EMIT_SPEED) * 1.0;
      var speed := baseVelocity * speedVariation;
      var vx := env.cos(angle) * speed;
      var vy := env.sin(angle) * speed;
      storage.velocityX[index] := vx;
      storage.velocityY[index] := vy;
    }

    /** `calculatePatternValues`: a fresh array with the normalised pattern value
        of every particle in use. */
    method CalculatePatternValues(storage: ParticleStorage, width: int, height: int, pattern: EmissionPattern,
                                  sqrt: real -> real)
      returns (result: array<real>)
      requires storage.Valid() && width > 0 && height > 0 && IsSqrt(sqrt)
      ensures fresh(result)
      ensures result[..] == NormalizedPatternValues(storage.originalX[..storage.particleCount],
                                                    storage.originalY[..storage.particleCount], pattern, width, height, sqrt)
    {
      var minValue, maxValue;
      result, minValue, maxValue := RawValues(storage, width, height, pattern, sqrt);
      ghost var raw := result[..];
      var valueRange := maxValue - minValue;
      if valueRange > 0.0 {
        Normalize(result, minValue, valueRange);
      }
      ghost var normalized := NormalizedPatternValues(storage.originalX[..storage.particleCount],
                                                      storage.originalY[..storage.particleCount], pattern, width, height, sqrt);
      assert forall i :: 0 <= i < result.Length ==> result[i] == normalized[i];
    }

    /** The first loop of `calculatePatternValues`: raw values and their extremes. */
    method RawValues(storage: ParticleStorage, width: int, height: int, pattern: EmissionPattern, sqrt: real -> real)
      returns (result: array<real>, minValue: real, maxValue: real)
      requires storage.Valid() && width > 0 && height > 0 && IsSqrt(sqrt)
      ensures fresh(result)
      ensures var raw := RawPatternValues(storage.originalX[..storage.particleCount],
                                          storage.originalY[..storage.particleCount], pattern, width, height, sqrt);
        result[..] == raw && minValue == Least(raw) && maxValue == Greatest(raw)
    {
      var count := storage.particleCount;
      ghost var raw := RawPatternValues(storage.originalX[..count], storage.originalY[..count], pattern, width, height, sqrt);
      result := new real[count];
      minValue := FLOAT_MAX_VALUE;
      maxValue := FLOAT_MIN_VALUE;
      var i := 0;
      while i < count
        invariant 0 <= i <= count
        invariant result[..i] == raw[..i]
        invariant minValue == Least(raw[..i]) && maxValue == Greatest(raw[..i])
      {
        var x := Trunc(storage.originalX[i]);
        var y := Trunc(storage.originalY[i]);
        result[i] := PatternValue(pattern, x, y, width, height, sqrt);
        assert raw[..i + 1][..i] == raw[..i];
        if result[i] < minValue {
          minValue := result[i];
        }
        if result[i] > maxValue {
          maxValue := result[i];
        }
        i := i + 1;
      }
      assert raw[..count] == raw;
      assert result[..] == result[..count];
    }

    /** The second loop of `calculatePatternValues`, run when the range is positive. */
    method Normalize(result: array<real>, minValue: real, valueRange: real)
      requires 0.0 < valueRange
      modifies result
      ensures forall i :: 0 <= i < result.Length ==> result[i] == NormalizedValue(old(result[i]), minValue, minValue + valueRange)
    {
      var i := 0;
      while i < result.Length
        invariant 0 <= i <= result.Length
        invariant forall j :: 0 <= j < i ==> result[j] == NormalizedValue(old(result[j]), minValue, minValue + valueRange)
        invariant forall j :: i <= j < result.Length ==> result[j] == old(result[j])
      {
        result[i] := (result[i] - minValue) / valueRange;
        i := i + 1;
      }
    }

    /** `calculateDelays`: every particle in use gets its delay and its flags;
        instant emission makes them all active at once with no delay. Slots
        beyond the cursor are untouched. */
    method CalculateDelays(storage: ParticleStorage, pattern: EmissionPattern, width: int, height: int,
                           effect: ParticleEffect, env: Env)
      requires storage.Valid() && width > 0 && height > 0 && env.Valid()
      modifies storage.delays, storage.active, storage.pending
      ensures storage.Valid()
      ensures config.emissionType == INSTANT ==> forall i :: 0 <= i < storage.capacity ==>
        storage.At(i) == if i < storage.particleCount then Scheduled(old(storage.At(i)), 0.0, true) else old(storage.At(i))
      ensures config.emissionType != INSTANT ==>
        var values := NormalizedPatternValues(storage.originalX[..storage.particleCount],
                                              storage.originalY[..storage.particleCount], pattern, width, height, env.sqrt);
        forall i :: 0 <= i < storage.capacity ==>
          storage.At(i) == if i < storage.particleCount
            then Scheduled(old(storage.At(i)), TargetDelay(config, effect, values[i], i, env), ForceActive(i, storage.particleCount))
            else old(storage.At(i))
    {
      if config.emissionType == INSTANT {
        ReleaseAll(storage);
        return;
      }
      var patternValues := CalculatePatternValues(storage, width, height, pattern, env.sqrt);
      AssignDelays(storage, patternValues, effect, env);
    }

    /** The instant branch of `calculateDelays`. */
    method ReleaseAll(storage: ParticleStorage)
      requires storage.Valid()
      modifies storage.delays, storage.active, storage.pending
      ensures storage.Valid()
      ensures forall i :: 0 <= i < storage.capacity ==>
        storage.At(i) == if i < storage.particleCount then Scheduled(old(storage.At(i)), 0.0, true) else old(storage.At(i))
    {
      var i := 0;
      while i < storage.particleCount
        invariant 0 <= i <= storage.particleCount
        invariant storage.Valid()
        invariant forall j :: 0 <= j < storage.capacity ==>
          storage.At(j) == if j < i then Scheduled(old(storage.At(j)), 0.0, true) else old(storage.At(j))
      {
        WriteSchedule(storage, i, 0.0, true);
        i := i + 1;
      }
    }

    /** The patterned branch of `calculateDelays`, given the normalised values. */
    method AssignDelays(storage: ParticleStorage, patternValues: array<real>, effect: ParticleEffect, env: Env)
      requires storage.Valid() && env.Valid() && patternValues.Length == storage.particleCount
      requires patternValues != storage.delays
      modifies storage.delays, storage.active, storage.pending
      ensures storage.Valid()
      ensures forall i :: 0 <= i < storage.capacity ==>
        storage.At(i) == if i < storage.particleCount
          then Scheduled(old(storage.At(i)), TargetDelay(config, effect, old(patternValues[i]), i, env), ForceActive(i, storage.particleCount))
          else old(storage.At(i))
    {
      ghost var values := patternValues[..];
      var i := 0;
      while i < storage.particleCount
        invariant 0 <= i <= storage.particleCount
        invariant storage.Valid()
        invariant patternValues[..] == values
        invariant forall j :: 0 <= j < storage.capacity ==>
          storage.At(j) == if j < i
            then Scheduled(old(storage.At(j)), TargetDelay(config, effect, values[j], j, env), ForceActive(j, storage.particleCount))
            else old(storage.At(j))
      {
        var delay := PlanDelay(patternValues[i], i, effect, env);
        var forceActive := (i as real) < (storage.particleCount as real) * 0.05;
        WriteSchedule(storage, i, delay, forceActive);
        i := i + 1;
      }
    }

    /** The delay of particle i with the given normalised pattern value. */
    method PlanDelay(patternValue: real, i: int, effect: ParticleEffect, env: Env) returns (delay: real)
      requires env.Valid()
      ensures delay == TargetDelay(config, effect, patternValue, i, env)
    {
      var finalDelay := patternValue;
      if config.randomizeDelays {
        var randomVariation := 1.0 - 0.3 + env.rand(i, CH_EMIT_DELAY) * 0.6;
        finalDelay := Clamp(patternValue * randomVariation, 0.0, 1.0);
      }
      delay := EmissionDelay(effect, finalDelay, config.durationFactor);
    }

    /** Writes one particle's delay and flags: pending when the delay is positive
        and the particle is not forced active, active otherwise. */
    method WriteSchedule(storage: ParticleStorage, index: int, delay: real, forceActive: bool)
      requires storage.Valid() && 0 <= index < storage.particleCount
      modifies storage.delays, storage.active, storage.pending
      ensures storage.Valid()
      ensures forall j :: 0 <= j < storage.capacity ==>
        storage.At(j) == if j == index then Scheduled(old(storage.At(j)), delay, forceActive) else old(storage.At(j))
    {
      storage.delays[index] := delay;
      if storage.delays[index] > 0.0 && !forceActive {
        storage.pending[index] := true;
        storage.active[index] := false;
      } else {
        storage.active[index] := true;
        storage.pending[index] := false;
      }
    }
  }
}
