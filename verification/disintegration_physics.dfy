/** The progress-driven disintegration behaviour (physics/DisintegrationPhysics.kt):
    every particle is placed, each frame, at its starting position plus a
    movement (an explosion that dies out, gravity, wind, a vortex, turbulence and
    the controller's oscillation) scaled by a maximum distance and its progress;
    it fades, shrinks and spins, meets the content's edges as the config says,
    and is deactivated once transparent. */
module DisintegrationBehavior {
  import opened Numeric
  import opened Oracles
  import opened Vectors
  import opened Config
  import opened Environment
  import opened Storage
  import opened Animation

  /** The draws the behaviour caches per particle (`ParticleParams`). */
  datatype ParticleParams = ParticleParams(
    angle: real,
    speed: real,
    alphaVariation: real,
    scaleVariation: real,
    rotationSpeed: real,
    rotationDirection: real,
    turbulenceOffset: Vector2,
    lifespanFactor: real,
    startingPosition: Vector2)

  /** Lines 72-82: the explosion direction, a random angle mixed with the
      configured direction by the directionality when that is positive. */
  function BaseAngle(index: int, config: DisintegrationConfig, env: Env): real
  {
    if config.explosionDirectionality > 0.0 then
      var randomAngle := env.rand(index, CH_DIS_MIXED_ANGLE) * 2.0 * PI;
      var fixedAngleRad := config.explosionDirection * PI / 180.0;
      randomAngle * (1.0 - config.explosionDirectionality) + fixedAngleRad * config.explosionDirectionality
    else
      env.rand(index, CH_DIS_ANGLE) * 2.0 * PI
  }

  /** A fully directional explosion goes in the configured direction; without
      directionality the angle is a draw from [0, 2 pi). */
  lemma BaseAngleShape(index: int, config: DisintegrationConfig, env: Env)
    ensures config.explosionDirectionality == 1.0 ==> BaseAngle(index, config, env) == config.explosionDirection * PI / 180.0
    ensures config.explosionDirectionality <= 0.0 && IsUnitRng(env.rand) ==> 0.0 <= BaseAngle(index, config, env) < 2.0 * PI
  {
    if config.explosionDirectionality <= 0.0 && IsUnitRng(env.rand) {
      var r := env.rand(index, CH_DIS_ANGLE);
      assert BaseAngle(index, config, env) == r * (2.0 * PI);
      ScaleNonNegative(0.0, r, 2.0 * PI);
      ScaleNonNegative(r, 1.0, 2.0 * PI);
    }
  }

  /** Lines 70-99: the draws made the first time particle `index` is updated;
      the particle starts from its pixel `(originX, originY)`. `Random.nextBoolean()`
      is a draw below one half. */
  function DrawParams(index: int, originX: real, originY: real, particle: ParticleConfig,
                      config: DisintegrationConfig, env: Env): ParticleParams
  {
    var speedFactor := 0.8 + env.rand(index, CH_DIS_SPEED) * 0.4;
    ParticleParams(
      BaseAngle(index, config, env),
      particle.velocityMagnitude * speedFactor * config.explosionStrength,
      env.rand(index, CH_DIS_ALPHA) * config.alphaVariationRange,
      Variation(env.rand(index, CH_DIS_SCALE), config.scaleVariationRange),
      config.rotationSpeed * (0.5 + env.rand(index, CH_DIS_ROTATION) * config.rotationVariationRange),
      if env.rand(index, CH_DIS_DIRECTION) < 0.5 then 1.0 else -1.0,
      Vector2(env.rand(index, CH_DIS_TURBULENCE_X) * 1000.0, env.rand(index, CH_DIS_TURBULENCE_Y) * 1000.0),
      1.0 - env.rand(index, CH_DIS_LIFESPAN) * config.lifespanVariationRange,
      Vector2(originX, originY))
  }

  /** With a random source drawing from [0, 1) and non-negative ranges: the
      particle starts on its pixel, spins one way or the other, its alpha
      variation lies in [0, range], its scale variation within half its range
      of 0, and its lifespan factor in [1 - range, 1]. */
  lemma ParamsInRange(index: int, originX: real, originY: real, particle: ParticleConfig,
                      config: DisintegrationConfig, env: Env)
    requires IsUnitRng(env.rand)
    requires 0.0 <= config.alphaVariationRange && 0.0 <= config.scaleVariationRange
    requires 0.0 <= config.lifespanVariationRange
    ensures var p := DrawParams(index, originX, originY, particle, config, env);
      && p.startingPosition == Vector2(originX, originY)
      && (p.rotationDirection == 1.0 || p.rotationDirection == -1.0)
      && 0.0 <= p.alphaVariation <= config.alphaVariationRange
      && -config.scaleVariationRange / 2.0 <= p.scaleVariation <= config.scaleVariationRange / 2.0
      && 1.0 - config.lifespanVariationRange <= p.lifespanFactor <= 1.0
  {
    var p := DrawParams(index, originX, originY, particle, config, env);
    var a := env.rand(index, CH_DIS_ALPHA);
    var l := env.rand(index, CH_DIS_LIFESPAN);
    assert p.alphaVariation == a * config.alphaVariationRange;
    assert p.lifespanFactor == 1.0 - l * config.lifespanVariationRange;
    ScaleNonNegative(0.0, a, config.alphaVariationRange);
    ScaleNonNegative(a, 1.0, config.alphaVariationRange);
    VariationRange(env.rand(index, CH_DIS_SCALE), config.scaleVariationRange);
    ScaleNonNegative(0.0, l, config.lifespanVariationRange);
    ScaleNonNegative(l, 1.0, config.lifespanVariationRange);
  }

  /** Lines 103-107: the controller's progress for the particle when there is a
      controller, otherwise the caller's scaled by the particle's lifespan
      factor, clamped into [0, 1]. */
  function ParticleProgress(reported: Option<real>, progress: real, lifespanFactor: real): (p: real)
    ensures 0.0 <= p <= 1.0
    ensures reported.Some? && 0.0 <= reported.value <= 1.0 ==> p == reported.value
    ensures reported.None? && 0.0 <= progress * lifespanFactor <= 1.0 ==> p == progress * lifespanFactor
  {
    Clamp(if reported.Some? then reported.value else progress * lifespanFactor, 0.0, 1.0)
  }

  /** Lines 115-116: the share of the explosion still acting. */
  function ExplosionFactor(progress: real, explosionDuration: real): real
    requires explosionDuration > 0.0
  {
    1.0 - Min(1.0, progress / explosionDuration)
  }

  /** The explosion acts in full at progress 0, lies in [0, 1] for any
      non-negative progress, never grows as progress advances, and is spent
      once progress reaches the explosion's duration. */
  lemma ExplosionFactorShape(progress: real, later: real, explosionDuration: real)
    requires explosionDuration > 0.0 && 0.0 <= progress <= later
    ensures ExplosionFactor(0.0, explosionDuration) == 1.0
    ensures 0.0 <= ExplosionFactor(later, explosionDuration) <= ExplosionFactor(progress, explosionDuration) <= 1.0
    ensures explosionDuration <= progress ==> ExplosionFactor(progress, explosionDuration) == 0.0
  {
    QuotientMonotone(0.0, progress, explosionDuration);
    QuotientMonotone(progress, later, explosionDuration);
    if explosionDuration <= progress {
      QuotientMonotone(explosionDuration, progress, explosionDuration);
      assert explosionDuration / explosionDuration == 1.0;
    }
  }

  /** Dividing by a positive number keeps order. */
  lemma QuotientMonotone(a: real, b: real, d: real)
    requires 0.0 < d && a <= b
    ensures a / d <= b / d
  {
    ScaleNonNegative(a, b, 1.0 / d);
    assert a / d == a * (1.0 / d) && b / d == b * (1.0 / d);
  }

  /** Lines 136-138: the gust multiplier. */
  function Gust(windTime: real, config: DisintegrationConfig, env: Env): real
  {
    if config.windGustiness > 0.0 then 1.0 + env.sin(windTime * 1.5) * config.windGustiness else 1.0
  }

  /** Lines 131-143: the wind's push, along the configured direction, with the
      gusty strength, growing with progress. */
  function WindPush(windTime: real, particleProgress: real, config: DisintegrationConfig, env: Env): Vector2
  {
    var windAngle := config.windDirection * PI / 180.0;
    var windForce := config.windStrength * Gust(windTime, config, env);
    Vector2(env.cos(windAngle) * windForce * particleProgress, env.sin(windAngle) * windForce * particleProgress)
  }

  /** Lines 149-173: the vortex's push on a particle at `position`, measured in
      coordinates normalised by the content's size: around the vortex centre,
      weaker with distance, nothing outside the vortex radius. */
  function VortexPush(position: Vector2, width: real, height: real, particleProgress: real,
                      config: DisintegrationConfig, env: Env): Vector2
    requires width > 0.0 && height > 0.0 && IsSqrt(env.sqrt)
  {
    var toVortexX := config.vortexPosition.x - position.x / width;
    var toVortexY := config.vortexPosition.y - position.y / height;
    var distance := OffsetLength(toVortexX, toVortexY, env.sqrt);
    if distance < config.vortexRadius then
      var strengthFactor := Clamp(1.0 - env.pow(distance / config.vortexRadius, config.vortexDecay), 0.0, 1.0);
      var angle := env.atan2(toVortexY, toVortexX);
      var perpX := -env.sin(angle) * config.vortexDirection;
      var perpY := env.cos(angle) * config.vortexDirection;
      Vector2(perpX * config.vortexStrength * strengthFactor * particleProgress,
              perpY * config.vortexStrength * strengthFactor * particleProgress)
    else ZERO
  }

  /** Lines 178-182: the turbulence's push, fading as progress advances. */
  function TurbulencePush(params: ParticleParams, particleProgress: real, config: DisintegrationConfig, env: Env): Vector2
  {
    var turbX := env.sin(params.turbulenceOffset.x + particleProgress * config.turbulenceFrequency);
    var turbY := env.cos(params.turbulenceOffset.y + particleProgress * config.turbulenceFrequency);
    Vector2(turbX * config.turbulenceStrength * (1.0 - particleProgress),
            turbY * config.turbulenceStrength * (1.0 - particleProgress))
  }

  /** Lines 191-195: the controller's oscillation, applied perpendicular to the
      explosion direction `(dirX, dirY)` and fading as progress advances. */
  function WavePush(oscillation: real, dirX: real, dirY: real, particleProgress: real): Vector2
  {
    Vector2(-dirY * oscillation * (1.0 - particleProgress), dirX * oscillation * (1.0 - particleProgress))
  }

  /** The oscillation's push is at right angles to the explosion direction. */
  lemma WavePushPerpendicular(oscillation: real, dirX: real, dirY: real, particleProgress: real)
    ensures var w := WavePush(oscillation, dirX, dirY, particleProgress);
      w.x * dirX + w.y * dirY == 0.0
  {
    var k := oscillation * (1.0 - particleProgress);
    var w := WavePush(oscillation, dirX, dirY, particleProgress);
    assert w.x == -dirY * k && w.y == dirX * k;
    assert w.x * dirX + w.y * dirY == k * (dirX * dirY - dirX * dirY);
  }

  /** Lines 111-196: the movement of a particle at `position`; `wave` is the
      controller's oscillation when the controller adds one. */
  function Movement(position: Vector2, params: ParticleParams, wave: Option<real>, particleProgress: real,
                    progress: real, windTime: real, width: real, height: real,
                    config: DisintegrationConfig, env: Env): Vector2
    requires config.explosionDuration > 0.0 && width > 0.0 && height > 0.0 && IsSqrt(env.sqrt)
  {
    var dirX, dirY := env.cos(params.angle), env.sin(params.angle);
    var explosionFactor := ExplosionFactor(progress, config.explosionDuration);
    var burst := Vector2(dirX * params.speed * explosionFactor,
                         dirY * params.speed * explosionFactor + config.gravity * particleProgress * 2.0);
    var windy := if config.windEnabled then Plus(burst, WindPush(windTime, particleProgress, config, env)) else burst;
    var swirled :=
      if config.vortexEnabled then Plus(windy, VortexPush(position, width, height, particleProgress, config, env))
      else windy;
    var shaken :=
      if config.turbulenceStrength > 0.0 then Plus(swirled, TurbulencePush(params, particleProgress, config, env))
      else swirled;
    if wave.Some? then Plus(shaken, WavePush(wave.value, dirX, dirY, particleProgress)) else shaken
  }

  /** Line 201: the distance a particle covers over the whole animation. */
  function MaxDistance(explosionStrength: real): (d: real)
    ensures 100.0 <= d <= 1000.0
  {
    200.0 * Clamp(explosionStrength, 0.5, 5.0)
  }

  /** Lines 204-213: the starting position moved by the movement scaled by the
      maximum distance and the progress. */
  function Displaced(start: Vector2, move: Vector2, maxDistance: real, particleProgress: real): Vector2
  {
    Vector2(start.x + move.x * maxDistance * particleProgress, start.y + move.y * maxDistance * particleProgress)
  }

  /** At progress 0 the particle is at its starting position, and at any
      progress it is off it by exactly the scaled movement. */
  lemma DisplacedShape(start: Vector2, move: Vector2, maxDistance: real, particleProgress: real)
    ensures Displaced(start, move, maxDistance, 0.0) == start
    ensures Minus(Displaced(start, move, maxDistance, particleProgress), start)
            == Times(move, maxDistance * particleProgress)
  {
    var d := Displaced(start, move, maxDistance, particleProgress);
    assert move.x * maxDistance * 0.0 == 0.0 && move.y * maxDistance * 0.0 == 0.0;
    assert d.x - start.x == move.x * (maxDistance * particleProgress);
    assert d.y - start.y == move.y * (maxDistance * particleProgress);
  }

  /** Lines 226-227: the fallback alpha, fading with progress and the
      particle's variation. */
  function FallbackAlpha(particleProgress: real, params: ParticleParams, config: DisintegrationConfig): real
  {
    (1.0 - particleProgress * config.fadeOutRate) * (1.0 - params.alphaVariation * particleProgress)
  }

  /** Line 235: the fallback scale, shrinking with progress. */
  function FallbackScale(particleProgress: real, params: ParticleParams, config: DisintegrationConfig): real
  {
    1.0 - (particleProgress * config.scaleDownFactor * (1.0 + params.scaleVariation))
  }

  /** Both fallbacks start at 1; with a fade-out rate of at least 1 and a
      variation of at most 1 the fallback alpha has reached 0 by progress 1. */
  lemma FallbackLookShape(params: ParticleParams, config: DisintegrationConfig)
    ensures FallbackAlpha(0.0, params, config) == 1.0 && FallbackScale(0.0, params, config) == 1.0
    ensures 1.0 <= config.fadeOutRate && params.alphaVariation <= 1.0 ==> FallbackAlpha(1.0, params, config) <= 0.0
  {
    assert FallbackAlpha(1.0, params, config) == (1.0 - config.fadeOutRate) * (1.0 - params.alphaVariation);
    if 1.0 <= config.fadeOutRate && params.alphaVariation <= 1.0 {
      ScaleNonNegative(1.0 - config.fadeOutRate, 0.0, 1.0 - params.alphaVariation);
    }
  }

  /** Lines 239-240: the spin, in the particle's direction, with the frame time
      clamped into [0.001, 0.1]. */
  function Spin(rotation: real, params: ParticleParams, deltaTime: real): real
  {
    rotation + params.rotationSpeed * params.rotationDirection * Clamp(deltaTime, 0.001, 0.1) * 60.0
  }

  /** Lines 274-284: one coordinate bounced off the edges 0 and `limit`. */
  function Bounced(v: real, limit: real, elasticity: real): real
  {
    if v < 0.0 then -v * elasticity
    else if v > limit then limit - (v - limit) * elasticity
    else v
  }

  /** With a non-negative elasticity a coordinate below 0 comes back at or above
      0, one beyond the edge comes back at or below it, and one in between is
      left alone, whatever the elasticity. */
  lemma BounceShape(v: real, limit: real, elasticity: real)
    ensures 0.0 <= elasticity && v < 0.0 ==> 0.0 <= Bounced(v, limit, elasticity)
    ensures 0.0 <= elasticity && 0.0 <= v && v > limit ==> Bounced(v, limit, elasticity) <= limit
    ensures 0.0 <= v <= limit ==> Bounced(v, limit, elasticity) == v
  {
    if elasticity < 0.0 {
    } else if v < 0.0 {
      ScaleNonNegative(0.0, -v, elasticity);
    } else if v > limit {
      ScaleNonNegative(0.0, v - limit, elasticity);
    }
  }

  /** Lines 289-293: one coordinate wrapped round the edges 0 and `limit`, with
      Kotlin's remainder. */
  function Wrapped(v: real, limit: real): real
    requires limit > 0.0
  {
    if v < 0.0 then limit + KotlinRem(v, limit)
    else if v > limit then KotlinRem(v, limit)
    else v
  }

  /** How many widths wrapping adds to a coordinate. */
  function WrapTurns(v: real, limit: real): int
    requires limit > 0.0
  {
    if v < 0.0 then 1 - Trunc(v / limit) else if v > limit then -Trunc(v / limit) else 0
  }

  /** A wrapped coordinate lies in [0, limit], one already there is left alone,
      and wrapping moves a coordinate by a whole number of widths. */
  lemma WrapShape(v: real, limit: real)
    requires limit > 0.0
    ensures 0.0 <= Wrapped(v, limit) <= limit
    ensures 0.0 <= v <= limit ==> Wrapped(v, limit) == v
    ensures Wrapped(v, limit) == v + limit * WrapTurns(v, limit) as real
  {
    KotlinRemBounds(v, limit);
  }

  /** Line 298: more than 20 units outside the content. */
  predicate Escaped(x: real, y: real, width: real, height: real)
  {
    x < -20.0 || x > width + 20.0 || y < -20.0 || y > height + 20.0
  }

  /** `deactivateParticle` on one slot: it clears both flags of a slot below the
      store's cursor (`inUse`) and ignores any other. */
  function Retired(s: Slot, inUse: bool): Slot
  {
    if inUse then s.(active := false, pending := false) else s
  }

  /** Lines 260-305: `handleBoundaries`. */
  function Bounded(s: Slot, width: real, height: real, behavior: BoundaryBehavior, elasticity: real, inUse: bool): Slot
    requires width > 0.0 && height > 0.0
  {
    match behavior
    case BOUNCE =>
      s.(positionX := Bounced(s.positionX, width, elasticity), positionY := Bounced(s.positionY, height, elasticity))
    case WRAP =>
      s.(positionX := Wrapped(s.positionX, width), positionY := Wrapped(s.positionY, height))
    case DESTROY =>
      if Escaped(s.positionX, s.positionY, width, height) then Retired(s, inUse) else s
    case NONE => s
  }

  /** Boundary handling moves a particle only under BOUNCE and WRAP, clears its
      flags only under DESTROY and exactly when it has escaped (and is in use),
      and leaves every other column alone; under NONE nothing changes. */
  lemma BoundedShape(s: Slot, width: real, height: real, behavior: BoundaryBehavior, elasticity: real, inUse: bool)
    requires width > 0.0 && height > 0.0
    ensures var r := Bounded(s, width, height, behavior, elasticity, inUse);
      && r == s.(positionX := r.positionX, positionY := r.positionY, active := r.active, pending := r.pending)
      && (behavior == NONE ==> r == s)
      && (behavior == WRAP ==> 0.0 <= r.positionX <= width && 0.0 <= r.positionY <= height)
      && (behavior == DESTROY ==>
            r.positionX == s.positionX && r.positionY == s.positionY
            && (r == s.(active := false, pending := false) <==> (inUse && Escaped(s.positionX, s.positionY, width, height)) || (!s.active && !s.pending))
            && (!(inUse && Escaped(s.positionX, s.positionY, width, height)) ==> r == s))
  {
    if behavior == WRAP {
      WrapShape(s.positionX, width);
      WrapShape(s.positionY, height);
    }
  }

  /** What one update does to a slot, given the particle's draws, what the
      controller reported (`NO_GUIDANCE` without a controller), the wind clock
      after this update, the content's size, and whether the slot is below the
      store's cursor. */
  function Disintegrated(s: Slot, params: ParticleParams, guidance: Guidance, progress: real, deltaTime: real,
                         windTime: real, width: real, height: real, config: DisintegrationConfig, env: Env,
                         inUse: bool): Slot
    requires config.explosionDuration > 0.0 && width > 0.0 && height > 0.0 && IsSqrt(env.sqrt)
  {
    var drawn := Placed(s, params, guidance, progress, deltaTime, windTime, width, height, config, env);
    var bounded :=
      if config.boundaryBehavior != NONE
      then Bounded(drawn, width, height, config.boundaryBehavior, config.boundaryElasticity, inUse)
      else drawn;
    if bounded.alpha <= 0.01 then Retired(bounded, inUse) else bounded
  }

  /** Lines 103-240: the slot with its new position, alpha, scale and rotation,
      before the edges and the fade-out are handled. */
  function Placed(s: Slot, params: ParticleParams, guidance: Guidance, progress: real, deltaTime: real,
                 windTime: real, width: real, height: real, config: DisintegrationConfig, env: Env): Slot
    requires config.explosionDuration > 0.0 && width > 0.0 && height > 0.0 && IsSqrt(env.sqrt)
  {
    var particleProgress := ParticleProgress(guidance.progress, progress, params.lifespanFactor);
    var move := Movement(Vector2(s.positionX, s.positionY), params, guidance.wave, particleProgress, progress,
                         windTime, width, height, config, env);
    var pos := Displaced(params.startingPosition, move, MaxDistance(config.explosionStrength), particleProgress);
    var alpha := if guidance.alpha.Some? then guidance.alpha.value else FallbackAlpha(particleProgress, params, config);
    var scale := if guidance.scale.Some? then guidance.scale.value else FallbackScale(particleProgress, params, config);
    s.(positionX := pos.x, positionY := pos.y, alpha := alpha, scale := scale,
       rotation := Spin(s.rotation, params, deltaTime))
  }

  /** An update writes only position, alpha, scale and rotation and may clear
      the flags; pixel, velocity, colour, size, shape and delay are kept, and a
      particle is never activated. A particle in use whose alpha has fallen to
      0.01 or below ends inactive. */
  lemma DisintegratedShape(s: Slot, params: ParticleParams, guidance: Guidance, progress: real, deltaTime: real,
                           windTime: real, width: real, height: real, config: DisintegrationConfig, env: Env,
                           inUse: bool)
    requires config.explosionDuration > 0.0 && width > 0.0 && height > 0.0 && IsSqrt(env.sqrt)
    ensures var r := Disintegrated(s, params, guidance, progress, deltaTime, windTime, width, height, config, env, inUse);
      && r.originalX == s.originalX && r.originalY == s.originalY
      && r.velocityX == s.velocityX && r.velocityY == s.velocityY
      && r.color == s.color && r.size == s.size && r.shape == s.shape && r.delay == s.delay
      && (r.active ==> s.active) && (r.pending ==> s.pending)
      && (inUse && r.alpha <= 0.01 ==> !r.active && !r.pending)
  {
    var drawn := Placed(s, params, guidance, progress, deltaTime, windTime, width, height, config, env);
    BoundedShape(drawn, width, height, config.boundaryBehavior, config.boundaryElasticity, inUse);
  }

  /** At progress 0 (no controller, or one reporting 0) a particle whose
      starting position lies inside the content stays there, whatever the
      boundary behaviour. */
  lemma StartsAtOrigin(s: Slot, params: ParticleParams, guidance: Guidance, progress: real, deltaTime: real,
                       windTime: real, width: real, height: real, config: DisintegrationConfig, env: Env,
                       inUse: bool)
    requires config.explosionDuration > 0.0 && width > 0.0 && height > 0.0 && IsSqrt(env.sqrt)
    requires ParticleProgress(guidance.progress, progress, params.lifespanFactor) == 0.0
    requires 0.0 <= params.startingPosition.x <= width && 0.0 <= params.startingPosition.y <= height
    ensures var r := Disintegrated(s, params, guidance, progress, deltaTime, windTime, width, height, config, env, inUse);
      r.positionX == params.startingPosition.x && r.positionY == params.startingPosition.y
  {
    var move := Movement(Vector2(s.positionX, s.positionY), params, guidance.wave, 0.0, progress,
                         windTime, width, height, config, env);
    DisplacedShape(params.startingPosition, move, MaxDistance(config.explosionStrength), 0.0);
    var drawn := Placed(s, params, guidance, progress, deltaTime, windTime, width, height, config, env);
    assert drawn.positionX == params.startingPosition.x && drawn.positionY == params.startingPosition.y;
    BounceShape(drawn.positionX, width, config.boundaryElasticity);
    BounceShape(drawn.positionY, height, config.boundaryElasticity);
    WrapShape(drawn.positionX, width);
    WrapShape(drawn.positionY, height);
  }

  /** The largest element of a non-empty column. */
  function SeqMax(s: seq<real>): real
    requires |s| > 0
  {
    if |s| == 1 then s[0] else Max(SeqMax(s[..|s| - 1]), s[|s| - 1])
  }

  /** `SeqMax` bounds every element and is one of them. */
  lemma {:induction false} SeqMaxIsMaximum(s: seq<real>)
    requires |s| > 0
    ensures forall i :: 0 <= i < |s| ==> s[i] <= SeqMax(s)
    ensures exists i :: 0 <= i < |s| && s[i] == SeqMax(s)
  {
    if |s| > 1 {
      var init := s[..|s| - 1];
      SeqMaxIsMaximum(init);
      var j :| 0 <= j < |init| && init[j] == SeqMax(init);
      assert forall i :: 0 <= i < |init| ==> s[i] == init[i];
      if SeqMax(init) < s[|s| - 1] {
        assert s[|s| - 1] == SeqMax(s);
      } else {
        assert s[j] == SeqMax(s);
      }
    } else {
      assert s[0] == SeqMax(s);
    }
  }

  /** Lines 66-67: a content dimension, the largest pixel coordinate of the
      column (1 for an empty column) but at least 1. */
  function ContentExtent(column: seq<real>): (e: real)
    ensures 1.0 <= e
    ensures |column| > 0 ==> forall i :: 0 <= i < |column| ==> column[i] <= e
  {
    if |column| > 0 then SeqMaxIsMaximum(column); Max(1.0, SeqMax(column)) else 1.0
  }

  /** Kotlin's `FloatArray.maxOrNull()`. */
  method MaxOrNull(a: array<real>) returns (m: Option<real>)
    ensures a.Length == 0 ==> m == None
    ensures a.Length > 0 ==> m.Some? && m.value == SeqMax(a[..])
  {
    if a.Length == 0 {
      return None;
    }
    var best := a[0];
    var i := 1;
    while i < a.Length
      invariant 1 <= i <= a.Length
      invariant best == SeqMax(a[..i])
    {
      assert a[..i + 1][..i] == a[..i];
      best := Max(best, a[i]);
      i := i + 1;
    }
    assert a[..a.Length] == a[..];
    m := Some(best);
  }

  /** `max(1f, column.maxOrNull() ?: 1f)`. */
  method ContentSize(column: array<real>) returns (e: real)
    ensures e == ContentExtent(column[..])
  {
    var m := MaxOrNull(column);
    e := Max(1.0, if m.Some? then m.value else 1.0);
  }

  /** The behaviour: its particle and disintegration configs, the per-particle
      draws, the wind clock, an update counter, and the animation controller it
      may consult. */
  class DisintegrationPhysics {
    const particle: ParticleConfig
    const config: DisintegrationConfig
    var particleRandomness: map<int, ParticleParams>
    var windTime: real
    var updateCount: nat
    var animationController: AnimationController?

    /** `DisintegrationPhysics(config)`: no draws yet, the wind clock at 0 and no
        controller. */
    constructor(particle: ParticleConfig, config: DisintegrationConfig)
      ensures this.particle == particle && this.config == config
      ensures particleRandomness == map[] && windTime == 0.0 && updateCount == 0
      ensures animationController == null
    {
      this.particle := particle;
      this.config := config;
      particleRandomness := map[];
      windTime := 0.0;
      updateCount := 0;
      animationController := null;
    }

    /** `setAnimationController`. */
    method SetAnimationController(controller: AnimationController)
      modifies this`animationController
      ensures animationController == controller
    {
      animationController := controller;
    }

    /** `reset`: forgets every particle's draws and restarts the wind clock and
        the update count. */
    method Reset()
      modifies this`particleRandomness, this`windTime, this`updateCount
      ensures particleRandomness == map[] && windTime == 0.0 && updateCount == 0
    {
      particleRandomness := map[];
      windTime := 0.0;
      updateCount := 0;
    }

    /** Lines 70-100: the cached draws for `index`, made on first use from its
        pixel `(originX, originY)`. */
    method ParamsFor(index: int, originX: real, originY: real, env: Env) returns (params: ParticleParams)
      modifies this`particleRandomness
      ensures particleRandomness
              == GetOrPut(old(particleRandomness), index, DrawParams(index, originX, originY, particle, config, env))
      ensures params == particleRandomness[index]
    {
      if index !in particleRandomness {
        particleRandomness := particleRandomness[index := DrawParams(index, originX, originY, particle, config, env)];
      }
      params := particleRandomness[index];
    }

    /** Lines 103-240 as arithmetic on the slot `s`, whose position and
        rotation are passed in: the position, alpha, scale and rotation the
        update writes. */
    method Place(ghost s: Slot, positionX: real, positionY: real, rotation: real, params: ParticleParams,
                 guidance: Guidance, progress: real, deltaTime: real, windTime: real, width: real, height: real,
                 env: Env)
      returns (posX: real, posY: real, alpha: real, scale: real, spin: real)
      requires config.explosionDuration > 0.0 && width > 0.0 && height > 0.0 && IsSqrt(env.sqrt)
      requires s.positionX == positionX && s.positionY == positionY && s.rotation == rotation
      ensures Placed(s, params, guidance, progress, deltaTime, windTime, width, height, config, env)
              == s.(positionX := posX, positionY := posY, alpha := alpha, scale := scale, rotation := spin)
    {
      var particleProgress := ParticleProgress(guidance.progress, progress, params.lifespanFactor);
      var move := Movement(Vector2(positionX, positionY), params, guidance.wave, particleProgress, progress,
                           windTime, width, height, config, env);
      var maxDistance := MaxDistance(config.explosionStrength);
      var position := Displaced(params.startingPosition, move, maxDistance, particleProgress);
      posX, posY := position.x, position.y;
      alpha := if guidance.alpha.Some? then guidance.alpha.value else FallbackAlpha(particleProgress, params, config);
      scale := if guidance.scale.Some? then guidance.scale.value else FallbackScale(particleProgress, params, config);
      spin := Spin(rotation, params, deltaTime);
    }

    /** Lines 103-240 on the store: one write of the position columns and one of
        alpha, scale and rotation. */
    method Draw(storage: ParticleStorage, index: nat, params: ParticleParams, guidance: Guidance,
                progress: real, deltaTime: real, windTime: real, width: real, height: real, env: Env)
      requires storage.Valid() && index < storage.capacity
      requires config.explosionDuration > 0.0 && width > 0.0 && height > 0.0 && IsSqrt(env.sqrt)
      modifies storage.positionX, storage.positionY, storage.velocityX, storage.velocityY,
               storage.alphas, storage.scales, storage.rotations
      ensures storage.Valid()
      ensures forall i :: 0 <= i < storage.capacity ==>
        storage.At(i) == if i == index
          then Placed(old(storage.At(i)), params, guidance, progress, deltaTime, windTime, width, height, config, env)
          else old(storage.At(i))
    {
      var posX, posY, alpha, scale, spin :=
        Place(storage.At(index), storage.positionX[index], storage.positionY[index], storage.rotations[index],
              params, guidance, progress, deltaTime, windTime, width, height, env);
      storage.SetMotion(index, posX, posY, storage.velocityX[index], storage.velocityY[index]);
      storage.SetLook(index, alpha, scale, spin);
    }

    /** Lines 260-305: `handleBoundaries`. */
    method HandleBoundaries(storage: ParticleStorage, index: nat, width: real, height: real,
                            behavior: BoundaryBehavior, elasticity: real)
      requires storage.Valid() && index < storage.capacity && width > 0.0 && height > 0.0
      modifies storage.positionX, storage.positionY, storage.active, storage.pending
      ensures storage.Valid()
      ensures forall i :: 0 <= i < storage.capacity ==>
        storage.At(i) == if i == index
          then Bounded(old(storage.At(i)), width, height, behavior, elasticity, index < storage.particleCount)
          else old(storage.At(i))
    {
      var posX, posY := storage.positionX[index], storage.positionY[index];
      match behavior
      case BOUNCE =>
        storage.positionX[index] := Bounced(posX, width, elasticity);
        storage.positionY[index] := Bounced(posY, height, elasticity);
      case WRAP =>
        storage.positionX[index] := Wrapped(posX, width);
        storage.positionY[index] := Wrapped(posY, height);
      case DESTROY =>
        if posX < -20.0 || posX > width + 20.0 || posY < -20.0 || posY > height + 20.0 {
          storage.DeactivateParticle(index);
        }
      case NONE =>
    }

    /** Lines 198-254 on the store: draw, handle the edges, and deactivate the
        particle once it is transparent. */
    method Apply(storage: ParticleStorage, index: nat, params: ParticleParams, guidance: Guidance,
                 progress: real, deltaTime: real, windTime: real, width: real, height: real, env: Env)
      requires storage.Valid() && index < storage.capacity
      requires config.explosionDuration > 0.0 && width > 0.0 && height > 0.0 && IsSqrt(env.sqrt)
      modifies storage.positionX, storage.positionY, storage.velocityX, storage.velocityY,
               storage.alphas, storage.scales, storage.rotations, storage.active, storage.pending
      ensures storage.Valid()
      ensures forall i :: 0 <= i < storage.capacity ==>
        storage.At(i) == if i == index
          then Disintegrated(old(storage.At(i)), params, guidance, progress, deltaTime, windTime, width, height,
                             config, env, index < storage.particleCount)
          else old(storage.At(i))
    {
      Draw(storage, index, params, guidance, progress, deltaTime, windTime, width, height, env);
      if config.boundaryBehavior != NONE {
        HandleBoundaries(storage, index, width, height, config.boundaryBehavior, config.boundaryElasticity);
      }
      if storage.alphas[index] <= 0.01 {
        storage.DeactivateParticle(index);
      }
    }

    /** Lines 60-128 without the store's writes: the update is counted, the
        particle's draws are made on first use, the controller (when there is
        one) is consulted, always for the oscillation and at its default
        frequency 4, and the wind clock advances when wind is enabled. */
    method Prepare(index: nat, originX: real, originY: real, deltaTime: real, env: Env)
      returns (params: ParticleParams, guidance: Guidance)
      modifies this`particleRandomness, this`windTime, this`updateCount, animationController
      ensures updateCount == old(updateCount) + 1
      ensures animationController != null ==> animationController.Timing() == old(animationController.Timing())
      ensures windTime == old(windTime) + (if config.windEnabled then Clamp(deltaTime, 0.001, 0.1) else 0.0)
      ensures particleRandomness
              == GetOrPut(old(particleRandomness), index, DrawParams(index, originX, originY, particle, config, env))
      ensures params == particleRandomness[index]
      ensures animationController != null ==>
        && Drawn(animationController, index, true, env)
        && HasDraws(animationController, index, true)
      ensures guidance == GuidanceOf(animationController, index, 4.0, true, true, env)
    {
      updateCount := updateCount + 1;
      var clampedDeltaTime := Clamp(deltaTime, 0.001, 0.1);
      params := ParamsFor(index, originX, originY, env);
      guidance := Guide(animationController, index, 4.0, true, true, env);
      if config.windEnabled {
        windTime := windTime + clampedDeltaTime;
      }
    }

    /** `updateParticle(storage, index, deltaTime, progress)`: the wind clock
        advances by the clamped frame time when wind is enabled, and slot `index`
        becomes `Disintegrated` of what it was, with this particle's cached draws
        and what the controller, when there is one, reports after being
        consulted; every other slot is untouched. */
    method UpdateParticle(storage: ParticleStorage, index: nat, deltaTime: real, progress: real, env: Env)
      requires storage.Valid() && index < storage.capacity
      requires config.explosionDuration > 0.0 && IsSqrt(env.sqrt)
      modifies this`particleRandomness, this`windTime, this`updateCount, animationController,
               storage.positionX, storage.positionY, storage.velocityX, storage.velocityY,
               storage.alphas, storage.scales, storage.rotations, storage.active, storage.pending
      ensures storage.Valid() && updateCount == old(updateCount) + 1
      ensures animationController != null ==> animationController.Timing() == old(animationController.Timing())
      ensures windTime == old(windTime) + (if config.windEnabled then Clamp(deltaTime, 0.001, 0.1) else 0.0)
      ensures particleRandomness == GetOrPut(old(particleRandomness), index,
        DrawParams(index, old(storage.originalX[index]), old(storage.originalY[index]), particle, config, env))
      ensures animationController != null ==>
        && Drawn(animationController, index, true, env)
        && HasDraws(animationController, index, true)
      ensures forall i :: 0 <= i < storage.capacity ==>
        storage.At(i) == if i == index
          then Disintegrated(old(storage.At(i)), particleRandomness[index],
                             GuidanceOf(animationController, index, 4.0, true, true, env),
                             progress, deltaTime, windTime,
                             ContentExtent(storage.originalX[..]), ContentExtent(storage.originalY[..]),
                             config, env, index < storage.particleCount)
          else old(storage.At(i))
    {
      var contentWidth := ContentSize(storage.originalX);
      var contentHeight := ContentSize(storage.originalY);
      var params, guidance := Prepare(index, storage.originalX[index], storage.originalY[index], deltaTime, env);
      Apply(storage, index, params, guidance, progress, deltaTime, windTime, contentWidth, contentHeight, env);
    }
  }
}
