/** The progress-driven assembly behaviour (physics/AssemblyPhysics.kt): every
    particle starts at a random offset from its pixel and is placed, each frame,
    on the eased interpolation between that start and the pixel, with a
    perpendicular oscillation and a turbulence jitter that fade out as it
    arrives, a fading-in alpha, a growing scale, a slowing spin and a final snap
    onto the pixel. */
module AssemblyBehavior {
  import opened Numeric
  import opened Oracles
  import opened Vectors
  import opened Config
  import opened Environment
  import opened Storage
  import opened Animation

  /** The draws the behaviour caches per particle (`ParticleParams`). */
  datatype ParticleParams = ParticleParams(
    startingOffset: Vector2,
    alphaVariation: real,
    scaleVariation: real,
    oscillationPhase: real,
    oscillationFrequency: real,
    turbulenceOffset: Vector2,
    rotationVariation: real)

  /** Lines 60-67: the offset from the pixel at which the particle starts, at a
      random angle and a random distance in [150, 300). */
  function StartingOffset(index: int, env: Env): Vector2
  {
    var angle := env.rand(index, CH_ASM_ANGLE) * 2.0 * PI;
    var offsetMagnitude := 150.0 + env.rand(index, CH_ASM_DISTANCE) * 150.0;
    Vector2(env.cos(angle) * offsetMagnitude, env.sin(angle) * offsetMagnitude)
  }

  /** Lines 58-78: the draws made the first time particle `index` is updated. */
  function DrawParams(index: int, config: AssemblyConfig, env: Env): ParticleParams
  {
    ParticleParams(
      StartingOffset(index, env),
      Variation(env.rand(index, CH_ASM_ALPHA), config.alphaVariationRange),
      Variation(env.rand(index, CH_ASM_SCALE), config.scaleVariationRange),
      env.rand(index, CH_ASM_PHASE) * 2.0 * PI,
      config.oscillationFrequency * (0.8 + env.rand(index, CH_ASM_FREQUENCY) * 0.4),
      Vector2(env.rand(index, CH_ASM_TURBULENCE_X) * 1000.0, env.rand(index, CH_ASM_TURBULENCE_Y) * 1000.0),
      Variation(env.rand(index, CH_ASM_ROTATION), config.rotationVariationRange))
  }

  /** The starting offset lies between 150 and 300 away from the pixel, so it is
      never the zero vector. */
  lemma OffsetFarEnough(index: int, env: Env)
    requires env.Valid()
    ensures 150.0 * 150.0 <= LengthSquared(StartingOffset(index, env)) < 300.0 * 300.0
    ensures StartingOffset(index, env) != ZERO
  {
    var angle := env.rand(index, CH_ASM_ANGLE) * 2.0 * PI;
    var m := 150.0 + env.rand(index, CH_ASM_DISTANCE) * 150.0;
    var c, s := env.cos(angle), env.sin(angle);
    assert s * s + c * c == 1.0;
    RotatedMagnitude(c, s, m);
    var offset := StartingOffset(index, env);
    assert offset == Vector2(c * m, s * m);
    assert LengthSquared(offset) == m * m;
    MultiplyBounds(150.0, m);
    SquareStrictlyMonotone(m, 300.0);
  }

  /** With a random source drawing from [0, 1) and non-negative ranges, each
      variation lies within half its range of 0, the phase in [0, 2 pi), the
      frequency within 20% of the configured one and the turbulence offsets in
      [0, 1000). */
  lemma ParamsInRange(index: int, config: AssemblyConfig, env: Env)
    requires IsUnitRng(env.rand)
    requires 0.0 <= config.alphaVariationRange && 0.0 <= config.scaleVariationRange
    requires 0.0 <= config.rotationVariationRange && 0.0 <= config.oscillationFrequency
    ensures var p := DrawParams(index, config, env);
      && -config.alphaVariationRange / 2.0 <= p.alphaVariation <= config.alphaVariationRange / 2.0
      && -config.scaleVariationRange / 2.0 <= p.scaleVariation <= config.scaleVariationRange / 2.0
      && -config.rotationVariationRange / 2.0 <= p.rotationVariation <= config.rotationVariationRange / 2.0
      && 0.0 <= p.oscillationPhase < 2.0 * PI
      && config.oscillationFrequency * 0.8 <= p.oscillationFrequency <= config.oscillationFrequency * 1.2
      && 0.0 <= p.turbulenceOffset.x < 1000.0 && 0.0 <= p.turbulenceOffset.y < 1000.0
  {
    var p := DrawParams(index, config, env);
    VariationRange(env.rand(index, CH_ASM_ALPHA), config.alphaVariationRange);
    VariationRange(env.rand(index, CH_ASM_SCALE), config.scaleVariationRange);
    VariationRange(env.rand(index, CH_ASM_ROTATION), config.rotationVariationRange);
    var phase := env.rand(index, CH_ASM_PHASE);
    assert p.oscillationPhase == phase * 2.0 * PI;
    var spread := 0.8 + env.rand(index, CH_ASM_FREQUENCY) * 0.4;
    assert 0.8 <= spread <= 1.2;
    ScaleNonNegative(0.8, spread, config.oscillationFrequency);
    ScaleNonNegative(spread, 1.2, config.oscillationFrequency);
    assert p.oscillationFrequency == spread * config.oscillationFrequency;
  }

  /** Lines 85-93: on the first update, recognised by a velocity of exactly
      zero, the offset is stored in the velocity columns and the particle is
      placed at its pixel plus the offset. */
  function Launched(s: Slot, params: ParticleParams): Slot
  {
    if s.velocityX == 0.0 && s.velocityY == 0.0 then
      s.(velocityX := params.startingOffset.x, velocityY := params.startingOffset.y,
         positionX := s.originalX + params.startingOffset.x, positionY := s.originalY + params.startingOffset.y)
    else s
  }

  /** Lines 100-104: the controller's progress for the particle when there is a
      controller, the caller's otherwise, clamped into [0, 1]. */
  function ParticleProgress(reported: Option<real>, progress: real): (p: real)
    ensures 0.0 <= p <= 1.0
    ensures reported.None? && 0.0 <= progress <= 1.0 ==> p == progress
    ensures reported.Some? && 0.0 <= reported.value <= 1.0 ==> p == reported.value
  {
    Clamp(if reported.Some? then reported.value else progress, 0.0, 1.0)
  }

  /** Line 109: the accelerating half of the ease. */
  function EaseIn(p: real): real
  {
    2.0 * p * p
  }

  /** Line 111: the decelerating half of the ease. */
  function EaseOut(p: real): real
  {
    1.0 - ((-2.0 * p + 2.0) * (-2.0 * p + 2.0)) / 2.0
  }

  /** Lines 108-112: the piecewise-quadratic ease. */
  function Ease(p: real): real
  {
    if p < 0.5 then EaseIn(p) else EaseOut(p)
  }

  /** The ease maps 0 to 0 and 1 to 1, its two halves meet at 0.5, it stays in
      [0, 1] on [0, 1], and it never decreases there. */
  lemma EaseShape(p: real, q: real)
    requires 0.0 <= p <= q <= 1.0
    ensures Ease(0.0) == 0.0 && Ease(1.0) == 1.0
    ensures EaseIn(0.5) == EaseOut(0.5) == Ease(0.5) == 0.5
    ensures 0.0 <= Ease(p) <= Ease(q) <= 1.0
  {
    assert EaseOut(1.0) == 1.0;
    EaseHalves(p);
    EaseHalves(q);
    if q < 0.5 {
      EaseInMonotone(p, q);
    } else if 0.5 <= p {
      EaseOutMonotone(p, q);
    }
  }

  lemma EaseInMonotone(p: real, q: real)
    requires 0.0 <= p <= q
    ensures EaseIn(p) <= EaseIn(q)
  {
    MultiplyBounds(p, q);
    assert EaseIn(p) == 2.0 * (p * p) && EaseIn(q) == 2.0 * (q * q);
  }

  lemma EaseOutMonotone(p: real, q: real)
    requires p <= q <= 1.0
    ensures EaseOut(p) <= EaseOut(q)
  {
    var u, v := -2.0 * p + 2.0, -2.0 * q + 2.0;
    MultiplyBounds(v, u);
  }

  /** Below 0.5 the ease lies in [0, 0.5); from 0.5 to 1 it lies in [0.5, 1]. */
  lemma EaseHalves(p: real)
    requires 0.0 <= p <= 1.0
    ensures p < 0.5 ==> 0.0 <= Ease(p) < 0.5
    ensures 0.5 <= p ==> 0.5 <= Ease(p) <= 1.0
  {
    if p < 0.5 {
      MultiplyBounds(p, 0.5);
      SquareStrictlyMonotone(p, 0.5);
      assert EaseIn(p) == 2.0 * (p * p);
    } else {
      var u := -2.0 * p + 2.0;
      MultiplyBounds(u, 1.0);
      Square(u, u * u);
    }
  }

  /** Lines 126-128: the oscillation, the controller's (already scaled by its
      strength) when it reports one and the behaviour's own sine otherwise,
      faded by the remaining ease. */
  function Oscillation(wave: Option<real>, particleProgress: real, eased: real,
                       params: ParticleParams, config: AssemblyConfig, env: Env): real
  {
    (if wave.Some? then wave.value
     else env.sin(particleProgress * params.oscillationFrequency + params.oscillationPhase) * config.oscillationStrength)
    * (1.0 - eased)
  }

  /** Lines 131-143: the oscillation applied perpendicular to the direction from
      start to target, 20 units per unit of oscillation; nothing when start and
      target are within 0.01 of each other. */
  function Sway(start: Vector2, target: Vector2, oscillation: real, sqrt: real -> real): Vector2
  {
    var dirX := target.x - start.x;
    var dirY := target.y - start.y;
    var dirLength := OffsetLength(dirX, dirY, sqrt);
    if dirLength > 0.01 then
      Vector2(-dirY / dirLength * oscillation * 20.0, dirX / dirLength * oscillation * 20.0)
    else ZERO
  }

  /** The sway is at right angles to the direction of travel, and it vanishes
      with the oscillation. */
  lemma SwayIsPerpendicular(start: Vector2, target: Vector2, oscillation: real, sqrt: real -> real)
    ensures var w := Sway(start, target, oscillation, sqrt);
      w.x * (target.x - start.x) + w.y * (target.y - start.y) == 0.0
    ensures oscillation == 0.0 ==> Sway(start, target, oscillation, sqrt) == ZERO
  {
    var dirX, dirY := target.x - start.x, target.y - start.y;
    var len := OffsetLength(dirX, dirY, sqrt);
    if len > 0.01 {
      var k := oscillation * 20.0 / len;
      var a, b := -dirY / len * oscillation * 20.0, dirX / len * oscillation * 20.0;
      assert a == -dirY * k && b == dirX * k;
      assert a * dirX + b * dirY == k * (dirX * dirY - dirX * dirY);
    }
  }

  /** Lines 148-155: the turbulence jitter, a sine and a cosine of the particle's
      turbulence offsets advanced by five times its progress, scaled by the
      turbulence strength, the remaining ease and 10. */
  function Jitter(params: ParticleParams, particleProgress: real, eased: real, config: AssemblyConfig, env: Env): Vector2
  {
    var turbFactor := config.turbulenceStrength * (1.0 - eased);
    Vector2(env.sin(params.turbulenceOffset.x + particleProgress * 5.0) * turbFactor * 10.0,
            env.cos(params.turbulenceOffset.y + particleProgress * 5.0) * turbFactor * 10.0)
  }

  /** Each jitter component stays within 10 times the faded turbulence strength
      and is 0 once the ease has reached 1. */
  lemma JitterBound(params: ParticleParams, particleProgress: real, eased: real, config: AssemblyConfig, env: Env)
    requires IsTrig(env.sin, env.cos) && 0.0 <= config.turbulenceStrength && eased <= 1.0
    ensures var j := Jitter(params, particleProgress, eased, config, env);
      var bound := config.turbulenceStrength * (1.0 - eased) * 10.0;
      -bound <= j.x <= bound && -bound <= j.y <= bound
    ensures eased == 1.0 ==> Jitter(params, particleProgress, eased, config, env) == ZERO
  {
    var f := config.turbulenceStrength * (1.0 - eased);
    ScaleNonNegative(0.0, 1.0 - eased, config.turbulenceStrength);
    assert 0.0 <= f;
    var bound := f * 10.0;
    var sx := env.sin(params.turbulenceOffset.x + particleProgress * 5.0);
    var cy := env.cos(params.turbulenceOffset.y + particleProgress * 5.0);
    var j := Jitter(params, particleProgress, eased, config, env);
    assert j.x == sx * bound && j.y == cy * bound;
    ScaleNonNegative(-1.0, sx, bound);
    ScaleNonNegative(sx, 1.0, bound);
    ScaleNonNegative(-1.0, cy, bound);
    ScaleNonNegative(cy, 1.0, bound);
  }

  /** Lines 95-156: the position of an already launched particle, the eased
      interpolation from its start to its pixel plus the sway (when the config
      has an oscillation strength) and the jitter (when it has a turbulence
      strength). */
  function Position(s: Slot, params: ParticleParams, wave: Option<real>, particleProgress: real, eased: real,
                    config: AssemblyConfig, env: Env): Vector2
  {
    var start := Vector2(s.originalX + s.velocityX, s.originalY + s.velocityY);
    var target := Vector2(s.originalX, s.originalY);
    var base := Vector2(Lerp(start.x, target.x, eased), Lerp(start.y, target.y, eased));
    var swayed :=
      if config.oscillationStrength > 0.0
      then Plus(base, Sway(start, target, Oscillation(wave, particleProgress, eased, params, config, env), env.sqrt))
      else base;
    if config.turbulenceStrength > 0.0 then Plus(swayed, Jitter(params, particleProgress, eased, config, env))
    else swayed
  }

  /** Once the ease reaches 1 the particle sits exactly on its pixel. */
  lemma PositionAtEnd(s: Slot, params: ParticleParams, wave: Option<real>, particleProgress: real,
                      config: AssemblyConfig, env: Env)
    ensures Position(s, params, wave, particleProgress, 1.0, config, env) == Vector2(s.originalX, s.originalY)
  {
    var start := Vector2(s.originalX + s.velocityX, s.originalY + s.velocityY);
    var target := Vector2(s.originalX, s.originalY);
    LerpShape(start.x, target.x, 1.0);
    LerpShape(start.y, target.y, 1.0);
    var o := Oscillation(wave, particleProgress, 1.0, params, config, env);
    assert o == 0.0;
    SwayIsPerpendicular(start, target, o, env.sqrt);
    var f := config.turbulenceStrength * (1.0 - 1.0);
    assert Jitter(params, particleProgress, 1.0, config, env) == ZERO;
  }

  /** Lines 169-170: the fallback alpha, grown from the initial scale (the source
      uses `initialScale` here too) by the ease, scaled by the fade-in rate and the
      particle's variation, clamped into [0.1, 1]. */
  function FallbackAlpha(eased: real, params: ParticleParams, config: AssemblyConfig): (a: real)
    ensures 0.1 <= a <= 1.0
  {
    var alphaBase := config.initialScale + (1.0 - config.initialScale) * eased;
    Clamp(alphaBase * config.fadeInRate * (1.0 + params.alphaVariation), 0.1, 1.0)
  }

  /** Lines 178-179: the fallback scale, from the initial to the final scale by
      the ease, times the particle's variation. */
  function FallbackScale(eased: real, params: ParticleParams, config: AssemblyConfig): real
  {
    (config.initialScale + (config.finalScale - config.initialScale) * eased) * (1.0 + params.scaleVariation)
  }

  /** The fallback scale starts at the initial scale and ends at the final
      scale, each times the particle's variation, and with a growing config it
      grows with the ease. */
  lemma FallbackScaleShape(e1: real, e2: real, params: ParticleParams, config: AssemblyConfig)
    requires e1 <= e2
    ensures FallbackScale(0.0, params, config) == config.initialScale * (1.0 + params.scaleVariation)
    ensures FallbackScale(1.0, params, config) == config.finalScale * (1.0 + params.scaleVariation)
    ensures config.initialScale <= config.finalScale && -1.0 <= params.scaleVariation ==>
      FallbackScale(e1, params, config) <= FallbackScale(e2, params, config)
  {
    if config.initialScale <= config.finalScale && -1.0 <= params.scaleVariation {
      var g := config.finalScale - config.initialScale;
      ScaleNonNegative(e1, e2, g);
      assert g * e1 <= g * e2;
      ScaleNonNegative(config.initialScale + g * e1, config.initialScale + g * e2, 1.0 + params.scaleVariation);
    }
  }

  /** Lines 183-186: the spin, slowed by the ease, with the frame time clamped
      into [0.001, 0.1]. */
  function Spin(rotation: real, eased: real, params: ParticleParams, deltaTime: real, config: AssemblyConfig): real
  {
    rotation + config.rotationSpeed * (1.0 - eased) * params.rotationVariation * Clamp(deltaTime, 0.001, 0.1) * 60.0
  }

  /** Line 193: an offset `(dx, dy)` shorter than 5. */
  predicate Close(dx: real, dy: real)
  {
    dx * dx + dy * dy < 5.0 * 5.0
  }

  /** Within 5 units of the pixel. */
  predicate NearTarget(s: Slot)
  {
    Close(s.originalX - s.positionX, s.originalY - s.positionY)
  }

  /** Lines 189-199: past 95% progress a particle within 5 units of its pixel is
      put on it at full opacity and scale 1. */
  function Snapped(s: Slot, particleProgress: real): Slot
  {
    if particleProgress > 0.95 && NearTarget(s) then
      s.(positionX := s.originalX, positionY := s.originalY, alpha := 1.0, scale := 1.0)
    else s
  }

  /** The snap changes a slot only past 95% progress and within 5 units of its
      pixel, then leaves it on its pixel at full opacity and scale 1, and a
      second snap changes nothing. */
  lemma SnapRule(s: Slot, particleProgress: real)
    ensures Snapped(s, particleProgress) != s ==> particleProgress > 0.95 && NearTarget(s)
    ensures particleProgress > 0.95 && NearTarget(s) ==>
      var r := Snapped(s, particleProgress);
      r.positionX == r.originalX && r.positionY == r.originalY && r.alpha == 1.0 && r.scale == 1.0
    ensures Snapped(Snapped(s, particleProgress), particleProgress) == Snapped(s, particleProgress)
  {
    var r := Snapped(s, particleProgress);
    if particleProgress > 0.95 && NearTarget(s) {
      assert r.originalX - r.positionX == 0.0 && r.originalY - r.positionY == 0.0;
      assert NearTarget(r);
    }
  }

  /** What one update does to an already launched slot, given what the
      controller reported (`NO_GUIDANCE` without a controller). */
  function Moved(s: Slot, params: ParticleParams, guidance: Guidance, progress: real, deltaTime: real,
                 config: AssemblyConfig, env: Env): Slot
  {
    var particleProgress := ParticleProgress(guidance.progress, progress);
    var eased := Ease(particleProgress);
    var pos := Position(s, params, guidance.wave, particleProgress, eased, config, env);
    var alpha := if guidance.alpha.Some? then guidance.alpha.value else FallbackAlpha(eased, params, config);
    var scale := if guidance.scale.Some? then guidance.scale.value else FallbackScale(eased, params, config);
    Snapped(s.(positionX := pos.x, positionY := pos.y, alpha := alpha, scale := scale,
               rotation := Spin(s.rotation, eased, params, deltaTime, config)), particleProgress)
  }

  /** `updateParticle` on one slot: launch on the first update, then move. */
  function Assembled(s: Slot, params: ParticleParams, guidance: Guidance, progress: real, deltaTime: real,
                     config: AssemblyConfig, env: Env): Slot
  {
    Moved(Launched(s, params), params, guidance, progress, deltaTime, config, env)
  }

  /** An update writes only position, alpha, scale and rotation (and, the first
      time, the velocity columns holding the offset); pixel, colour, size, shape,
      flags and delay are kept. */
  lemma AssembledKeeps(s: Slot, params: ParticleParams, guidance: Guidance, progress: real, deltaTime: real,
                       config: AssemblyConfig, env: Env)
    ensures var r := Assembled(s, params, guidance, progress, deltaTime, config, env);
      && r.originalX == s.originalX && r.originalY == s.originalY
      && r.velocityX == Launched(s, params).velocityX && r.velocityY == Launched(s, params).velocityY
      && r.color == s.color && r.size == s.size && r.shape == s.shape
      && r.active == s.active && r.pending == s.pending && r.delay == s.delay
  {
    var l := Launched(s, params);
    var m := Moved(l, params, guidance, progress, deltaTime, config, env);
    SnapKeeps(l, params, guidance, progress, deltaTime, config, env);
  }

  lemma SnapKeeps(l: Slot, params: ParticleParams, guidance: Guidance, progress: real, deltaTime: real,
                  config: AssemblyConfig, env: Env)
    ensures var m := Moved(l, params, guidance, progress, deltaTime, config, env);
      m == m.(originalX := l.originalX, originalY := l.originalY, velocityX := l.velocityX, velocityY := l.velocityY,
              color := l.color, size := l.size, shape := l.shape, active := l.active, pending := l.pending,
              delay := l.delay)
  {
  }

  /** With a non-zero offset the first update leaves a non-zero velocity, so no
      later update launches the particle again. */
  lemma NeverRelaunches(s: Slot, params: ParticleParams, guidance: Guidance, progress: real, deltaTime: real,
                        config: AssemblyConfig, env: Env)
    requires params.startingOffset != ZERO
    ensures var r := Assembled(s, params, guidance, progress, deltaTime, config, env);
      !(r.velocityX == 0.0 && r.velocityY == 0.0) && Launched(r, params) == r
  {
    AssembledKeeps(s, params, guidance, progress, deltaTime, config, env);
  }

  /** At progress 1 the particle ends on its pixel at full opacity and scale 1,
      its spin stopped, whatever the controller reported for alpha and scale. */
  lemma ArrivesAtEnd(s: Slot, params: ParticleParams, guidance: Guidance, progress: real, deltaTime: real,
                     config: AssemblyConfig, env: Env)
    requires ParticleProgress(guidance.progress, progress) == 1.0
    ensures var r := Assembled(s, params, guidance, progress, deltaTime, config, env);
      && r.positionX == s.originalX && r.positionY == s.originalY
      && r.alpha == 1.0 && r.scale == 1.0
      && r.rotation == s.rotation
  {
    var l := Launched(s, params);
    assert Ease(1.0) == 1.0;
    PositionAtEnd(l, params, guidance.wave, 1.0, config, env);
    var pos := Position(l, params, guidance.wave, 1.0, 1.0, config, env);
    var alpha := if guidance.alpha.Some? then guidance.alpha.value else FallbackAlpha(1.0, params, config);
    var scale := if guidance.scale.Some? then guidance.scale.value else FallbackScale(1.0, params, config);
    var unsnapped := l.(positionX := pos.x, positionY := pos.y, alpha := alpha, scale := scale,
                        rotation := Spin(l.rotation, 1.0, params, deltaTime, config));
    assert NearTarget(unsnapped);
  }

  /** The alpha an update leaves lies in [0, 1] whenever the controller's alpha,
      if reported, does. */
  lemma AlphaInRange(s: Slot, params: ParticleParams, guidance: Guidance, progress: real, deltaTime: real,
                     config: AssemblyConfig, env: Env)
    requires guidance.alpha.Some? ==> 0.0 <= guidance.alpha.value <= 1.0
    ensures 0.0 <= Assembled(s, params, guidance, progress, deltaTime, config, env).alpha <= 1.0
  {
  }

  /** The behaviour: its assembly config, the per-particle draws, an update
      counter, and the animation controller it may consult. */
  class AssemblyPhysics {
    const config: AssemblyConfig
    var particleRandomness: map<int, ParticleParams>
    var updateCount: nat
    var animationController: AnimationController?

    /** `AssemblyPhysics(config)`: no draws yet and no controller. */
    constructor(config: AssemblyConfig)
      ensures this.config == config && particleRandomness == map[] && updateCount == 0
      ensures animationController == null
    {
      this.config := config;
      particleRandomness := map[];
      updateCount := 0;
      animationController := null;
    }

    /** `setAnimationController`. */
    method SetAnimationController(controller: AnimationController)
      modifies this`animationController
      ensures animationController == controller
    {
      animationController := controller;
    }

    /** `reset`: forgets every particle's draws and the update count. */
    method Reset()
      modifies this`particleRandomness, this`updateCount
      ensures particleRandomness == map[] && updateCount == 0
    {
      particleRandomness := map[];
      updateCount := 0;
    }

    /** Lines 58-78: the cached draws for `index`, made on first use. */
    method ParamsFor(index: int, env: Env) returns (params: ParticleParams)
      modifies this`particleRandomness
      ensures particleRandomness == GetOrPut(old(particleRandomness), index, DrawParams(index, config, env))
      ensures params == particleRandomness[index]
    {
      if index !in particleRandomness {
        particleRandomness := particleRandomness[index := DrawParams(index, config, env)];
      }
      params := particleRandomness[index];
    }

    /** Lines 95-156 as arithmetic on the launched slot `l`: the position
        before the snap. */
    method Aim(ghost l: Slot, targetX: real, targetY: real, velocityX: real, velocityY: real,
               params: ParticleParams, wave: Option<real>, particleProgress: real, easedProgress: real, env: Env)
      returns (posX: real, posY: real)
      requires l.originalX == targetX && l.originalY == targetY
      requires l.velocityX == velocityX && l.velocityY == velocityY
      ensures Vector2(posX, posY) == Position(l, params, wave, particleProgress, easedProgress, config, env)
    {
      var startX, startY := targetX + velocityX, targetY + velocityY;
      posX := startX + (targetX - startX) * easedProgress;
      posY := startY + (targetY - startY) * easedProgress;
      assert posX == Lerp(l.originalX + l.velocityX, l.originalX, easedProgress);
      assert posY == Lerp(l.originalY + l.velocityY, l.originalY, easedProgress);
      if config.oscillationStrength > 0.0 {
        var oscillation := Oscillation(wave, particleProgress, easedProgress, params, config, env);
        var sway := Sway(Vector2(startX, startY), Vector2(targetX, targetY), oscillation, env.sqrt);
        posX, posY := posX + sway.x, posY + sway.y;
      }
      if config.turbulenceStrength > 0.0 {
        var jitter := Jitter(params, particleProgress, easedProgress, config, env);
        posX, posY := posX + jitter.x, posY + jitter.y;
      }
    }

    /** Lines 95-199 as arithmetic on the launched slot `l`, whose pixel,
        velocity (holding the starting offset) and rotation are passed in: the
        position, alpha, scale and rotation the update writes. */
    method Steer(ghost l: Slot, targetX: real, targetY: real, velocityX: real, velocityY: real, rotation: real,
                 params: ParticleParams, guidance: Guidance, progress: real, deltaTime: real, env: Env)
      returns (posX: real, posY: real, alpha: real, scale: real, spin: real)
      requires l.originalX == targetX && l.originalY == targetY
      requires l.velocityX == velocityX && l.velocityY == velocityY && l.rotation == rotation
      ensures Moved(l, params, guidance, progress, deltaTime, config, env)
              == l.(positionX := posX, positionY := posY, alpha := alpha, scale := scale, rotation := spin)
    {
      var particleProgress := ParticleProgress(guidance.progress, progress);
      var easedProgress := Ease(particleProgress);
      posX, posY := Aim(l, targetX, targetY, velocityX, velocityY, params, guidance.wave, particleProgress,
                        easedProgress, env);
      alpha := if guidance.alpha.Some? then guidance.alpha.value else FallbackAlpha(easedProgress, params, config);
      scale := if guidance.scale.Some? then guidance.scale.value else FallbackScale(easedProgress, params, config);
      spin := Spin(rotation, easedProgress, params, deltaTime, config);
      ghost var unsnapped := l.(positionX := posX, positionY := posY, alpha := alpha, scale := scale, rotation := spin);
      assert Moved(l, params, guidance, progress, deltaTime, config, env) == Snapped(unsnapped, particleProgress);
      if particleProgress > 0.95 {
        var dx, dy := targetX - posX, targetY - posY;
        assert unsnapped.originalX - unsnapped.positionX == dx && unsnapped.originalY - unsnapped.positionY == dy;
        if Close(dx, dy) {
          posX, posY, alpha, scale := targetX, targetY, 1.0, 1.0;
        }
      }
    }

    /** Lines 80-199 on the store: the launch (lines 85-93) is folded into the
        one write of the position and velocity columns, which no controller call
        in between reads. */
    method Advance(storage: ParticleStorage, index: nat, params: ParticleParams, guidance: Guidance,
                   progress: real, deltaTime: real, env: Env)
      requires storage.Valid() && index < storage.capacity
      modifies storage.positionX, storage.positionY, storage.velocityX, storage.velocityY,
               storage.alphas, storage.scales, storage.rotations
      ensures storage.Valid()
      ensures forall i :: 0 <= i < storage.capacity ==>
        storage.At(i) == if i == index then Assembled(old(storage.At(i)), params, guidance, progress, deltaTime, config, env)
                         else old(storage.At(i))
    {
      ghost var l := Launched(storage.At(index), params);
      var velocityX, velocityY := storage.velocityX[index], storage.velocityY[index];
      if velocityX == 0.0 && velocityY == 0.0 {
        velocityX, velocityY := params.startingOffset.x, params.startingOffset.y;
      }
      var posX, posY, alpha, scale, spin :=
        Steer(l, storage.originalX[index], storage.originalY[index], velocityX, velocityY, storage.rotations[index],
              params, guidance, progress, deltaTime, env);
      storage.SetMotion(index, posX, posY, velocityX, velocityY);
      storage.SetLook(index, alpha, scale, spin);
    }

    /** `updateParticle(storage, index, deltaTime, progress)`: slot `index` becomes
        `Assembled` of what it was, with this particle's cached draws and what the
        controller, when there is one, reports after being consulted; every other
        slot is untouched. */
    method UpdateParticle(storage: ParticleStorage, index: nat, deltaTime: real, progress: real, env: Env)
      requires storage.Valid() && index < storage.capacity
      modifies this`particleRandomness, this`updateCount, animationController,
               storage.positionX, storage.positionY, storage.velocityX, storage.velocityY,
               storage.alphas, storage.scales, storage.rotations
      ensures storage.Valid() && updateCount == old(updateCount) + 1
      ensures animationController != null ==> animationController.Timing() == old(animationController.Timing())
      ensures particleRandomness == GetOrPut(old(particleRandomness), index, DrawParams(index, config, env))
      ensures animationController != null ==>
        && Drawn(animationController, index, config.oscillationStrength > 0.0, env)
        && HasDraws(animationController, index, config.oscillationStrength > 0.0)
      ensures forall i :: 0 <= i < storage.capacity ==>
        storage.At(i) == if i == index
          then Assembled(old(storage.At(i)), particleRandomness[index],
                         GuidanceOf(animationController, index, particleRandomness[index].oscillationFrequency,
                                    config.oscillationStrength > 0.0, false, env),
                         progress, deltaTime, config, env)
          else old(storage.At(i))
    {
      var params, guidance := Prepare(index, env);
      Advance(storage, index, params, guidance, progress, deltaTime, env);
    }

    /** Lines 51-66 and the controller calls of lines 95-199: the update count,
        the cached draws and the controller's guidance for `index`. */
    method Prepare(index: nat, env: Env) returns (params: ParticleParams, guidance: Guidance)
      modifies this`particleRandomness, this`updateCount, animationController
      ensures updateCount == old(updateCount) + 1
      ensures animationController != null ==> animationController.Timing() == old(animationController.Timing())
      ensures particleRandomness == GetOrPut(old(particleRandomness), index, DrawParams(index, config, env))
      ensures params == particleRandomness[index]
      ensures animationController != null ==>
        && Drawn(animationController, index, config.oscillationStrength > 0.0, env)
        && HasDraws(animationController, index, config.oscillationStrength > 0.0)
      ensures guidance == GuidanceOf(animationController, index, params.oscillationFrequency,
                                     config.oscillationStrength > 0.0, false, env)
    {
      updateCount := updateCount + 1;
      params := ParamsFor(index, env);
      guidance := Guide(animationController, index, params.oscillationFrequency,
                        config.oscillationStrength > 0.0, false, env);
    }
  }
}
