/** The force-based disintegration engine (physics/DisintegrationPhysicsEngine.kt):
    particles fade out, shrink and spin while gravity, turbulence and a fading
    explosion along a per-particle angle push them away; a particle whose alpha
    has dropped to 0.01 or below is deactivated. */
module DisintegrationEngine {
  import opened Numeric
  import opened Oracles
  import opened Vectors
  import opened Config
  import opened Environment
  import opened Storage
  import opened Physics

  /** The number of per-particle angles the engine keeps (`FloatArray(10000)`). */
  const ANGLE_SLOTS: nat := 10000

  /** The alpha below or at which a particle is deactivated. */
  const FADED_ALPHA: real := 0.01

  /** The explosion angle of particle `i`: the configured angle, varied by a draw
      in [-variation/2, variation/2) when the variation is positive. */
  function InitialAngle(i: int, tuning: DisintegrationTuning, env: Env): real
  {
    tuning.angle + (if tuning.angleVariation > 0.0 then (env.rand(i, CH_ENGINE_ANGLE) - 0.5) * tuning.angleVariation else 0.0)
  }

  /** `max(0f, 1f - progress * fadeOutRate)` */
  function FadeOutAlpha(progress: real, fadeOutRate: real): real
  {
    Max(0.0, 1.0 - progress * fadeOutRate)
  }

  /** `max(0.1f, 1f - progress * scaleDownFactor)` */
  function ShrinkScale(progress: real, scaleDownFactor: real): real
  {
    Max(0.1, 1.0 - progress * scaleDownFactor)
  }

  /** The per-particle rotation multiplier `1 + (index % 10) / 10 * rotationVariation`. */
  function SpinFactor(index: nat, rotationVariation: real): real
  {
    1.0 + (index % 10) as real / 10.0 * rotationVariation
  }

  /** The rotation added in one step: `rotationSpeed * 60 * dt` times the factor. */
  function SpinStep(index: nat, deltaTime: real, tuning: DisintegrationTuning): real
  {
    tuning.rotationSpeed * 60.0 * deltaTime * SpinFactor(index, tuning.rotationVariation)
  }

  /** The slot after the visual updates (lines 54-60). */
  function Faded(s: Slot, index: nat, deltaTime: real, progress: real, tuning: DisintegrationTuning): Slot
  {
    s.(alpha := FadeOutAlpha(progress, tuning.fadeOutRate),
       scale := ShrinkScale(progress, tuning.scaleDownFactor),
       rotation := s.rotation + SpinStep(index, deltaTime, tuning))
  }

  /** `gravityForce * (0.2f + progress * 0.8f)`: gravity grows with progress. */
  function GravityMagnitude(progress: real, gravityForce: real): real
  {
    gravityForce * (0.2 + progress * 0.8)
  }

  /** `explosionForce * (1f - progress / explosionDuration)` */
  function ExplosionStrength(progress: real, tuning: DisintegrationTuning): real
    requires tuning.explosionDuration != 0.0
  {
    tuning.explosionForce * (1.0 - progress / tuning.explosionDuration)
  }

  /** The explosion strength is computed only while `progress < explosionDuration`
      and divides by the duration, so any progress is admitted except a negative
      one against a zero duration, where the Float division would be infinite. */
  predicate ExplosionDefined(progress: real, tuning: DisintegrationTuning)
  {
    tuning.explosionDuration != 0.0 || 0.0 <= progress
  }

  /** The push of strength `radialStrength` along the unit vector
      `(dx, dy) / distance`, or nothing when the distance is not positive. */
  function RadialPush(dx: real, dy: real, distance: real, radialStrength: real): Vector2
  {
    if distance > 0.0 then Vector2(dx / distance * radialStrength, dy / distance * radialStrength) else ZERO
  }

  /** The push away from the original pixel that a directionality below 1 adds:
      the unit vector from the pixel to the particle times
      `strength * (1 - directionality)`, or nothing when the particle sits on
      its pixel or the directionality is 1 or more. */
  function RadialForce(s: Slot, strength: real, directionality: real, sqrt: real -> real): Vector2
  {
    var dx := s.positionX - s.originalX;
    var dy := s.positionY - s.originalY;
    if directionality < 1.0 then RadialPush(dx, dy, OffsetLength(dx, dy, sqrt), strength * (1.0 - directionality))
    else ZERO
  }

  /** The explosion while it lasts (progress below its duration): a push along the
      particle's angle plus the radial push; afterwards nothing. */
  function ExplosionForce(s: Slot, progress: real, tuning: DisintegrationTuning, angle: real, env: Env): Vector2
    requires ExplosionDefined(progress, tuning)
  {
    if progress < tuning.explosionDuration then
      var strength := ExplosionStrength(progress, tuning);
      var push := DirectionalForce(angle, strength, env);
      var radial := RadialForce(s, strength, tuning.directionality, env.sqrt);
      Vector2(push.x + radial.x, push.y + radial.y)
    else ZERO
  }

  /** Everything `updateParticle` accumulates for slot `s` (lines 65-102):
      gravity, turbulence at time `5 * progress`, and the explosion. */
  function DisintegrationForce(s: Slot, progress: real, tuning: DisintegrationTuning, angle: real, env: Env): Vector2
    requires ExplosionDefined(progress, tuning)
  {
    var gravity := DirectionalForce(tuning.gravityAngle, GravityMagnitude(progress, tuning.gravityForce), env);
    var shake := TurbulenceForce(s.positionX, s.positionY, progress * 5.0, tuning.physics, env);
    var blast := ExplosionForce(s, progress, tuning, angle, env);
    Vector2(gravity.x + shake.x + blast.x, gravity.y + shake.y + blast.y)
  }

  /** The deactivation at the end of `updateParticle`: a slot in use whose alpha is
      at most 0.01 loses both flags. */
  function Retired(s: Slot, inUse: bool): Slot
  {
    if s.alpha <= FADED_ALPHA && inUse then s.(active := false, pending := false) else s
  }

  /** One whole `updateParticle` on slot `index`, holding `s`: visual updates,
      forces, integration, then deactivation when faded. `inUse` says whether the
      slot lies below the storage cursor. */
  function Disintegrated(s: Slot, index: nat, deltaTime: real, progress: real, tuning: DisintegrationTuning,
                         angle: real, env: Env, inUse: bool): Slot
    requires ExplosionDefined(progress, tuning)
  {
    var f := Faded(s, index, deltaTime, progress, tuning);
    Retired(Integrated(f, DisintegrationForce(f, progress, tuning, angle, env), tuning.physics, deltaTime), inUse)
  }

  // ---------------------------------------------------------------------------
  // Properties of the specification

  /** With a positive variation and draws in [0, 1) the angle lies in
      [angle - variation/2, angle + variation/2); otherwise it is the configured
      angle exactly. */
  lemma InitialAngleRange(i: int, tuning: DisintegrationTuning, env: Env)
    requires IsUnitRng(env.rand)
    ensures tuning.angleVariation <= 0.0 ==> InitialAngle(i, tuning, env) == tuning.angle
    ensures 0.0 < tuning.angleVariation ==>
              tuning.angle - tuning.angleVariation / 2.0 <= InitialAngle(i, tuning, env)
              < tuning.angle + tuning.angleVariation / 2.0
  {
    if 0.0 < tuning.angleVariation {
      var r := env.rand(i, CH_ENGINE_ANGLE);
      var v := tuning.angleVariation;
      assert 0.0 <= r < 1.0;
      CenteredDraw(r, v, (r - 0.5) * v);
    }
  }

  lemma CenteredDraw(r: real, v: real, p: real)
    requires 0.0 <= r < 1.0 && 0.0 < v && p == (r - 0.5) * v
    ensures -v / 2.0 <= p < v / 2.0
  {
    ScaleNonNegative(-0.5, r - 0.5, v);
    assert p - v / 2.0 == (r - 1.0) * v;
    ProductPositive(1.0 - r, v, (1.0 - r) * v);
  }

  /** Alpha starts at 1, stays in [0, 1] for non-negative progress and rate, never
      rises as progress grows, and is 0 from `progress * fadeOutRate >= 1` on. */
  lemma FadeOutAlphaShape(progress: real, later: real, fadeOutRate: real)
    ensures FadeOutAlpha(0.0, fadeOutRate) == 1.0
    ensures 0.0 <= FadeOutAlpha(progress, fadeOutRate)
    ensures 0.0 <= progress * fadeOutRate ==> FadeOutAlpha(progress, fadeOutRate) <= 1.0
    ensures 1.0 <= progress * fadeOutRate ==> FadeOutAlpha(progress, fadeOutRate) == 0.0
    ensures 0.0 <= fadeOutRate && progress <= later ==>
              FadeOutAlpha(later, fadeOutRate) <= FadeOutAlpha(progress, fadeOutRate)
  {
    if 0.0 <= fadeOutRate && progress <= later {
      ScaleNonNegative(progress, later, fadeOutRate);
    }
  }

  /** The scale starts at 1 and never drops below 0.1. */
  lemma ShrinkScaleFloor(progress: real, scaleDownFactor: real)
    ensures ShrinkScale(0.0, scaleDownFactor) == 1.0
    ensures 0.1 <= ShrinkScale(progress, scaleDownFactor)
    ensures 0.0 <= progress * scaleDownFactor ==> ShrinkScale(progress, scaleDownFactor) <= 1.0
    ensures 0.9 <= progress * scaleDownFactor ==> ShrinkScale(progress, scaleDownFactor) == 0.1
  {
  }

  /** The rotation factor depends on the slot's last decimal digit only and lies
      between 1 and `1 + 0.9 * rotationVariation`. */
  lemma SpinFactorRange(index: nat, rotationVariation: real)
    ensures SpinFactor(index, rotationVariation) == SpinFactor(index % 10, rotationVariation)
    ensures 0.0 <= rotationVariation ==>
              1.0 <= SpinFactor(index, rotationVariation) <= 1.0 + 0.9 * rotationVariation
  {
    var k := index % 10;
    assert k % 10 == k;
    assert SpinFactor(index, rotationVariation) == SpinFactor(k, rotationVariation);
    var d := k as real / 10.0;
    assert 0.0 <= k as real <= 9.0;
    assert 0.0 <= d <= 0.9;
    if 0.0 <= rotationVariation {
      ScaleNonNegative(0.0, d, rotationVariation);
      ScaleNonNegative(d, 0.9, rotationVariation);
      assert d * rotationVariation <= 0.9 * rotationVariation;
      assert SpinFactor(index, rotationVariation) == 1.0 + d * rotationVariation;
    }
  }

  /** Gravity is a fifth of its configured force at progress 0 and all of it at
      progress 1, and the gravity push has exactly that length. */
  lemma GravityRamp(progress: real, tuning: DisintegrationTuning, env: Env)
    requires IsTrig(env.sin, env.cos)
    ensures GravityMagnitude(0.0, tuning.gravityForce) == 0.2 * tuning.gravityForce
    ensures GravityMagnitude(1.0, tuning.gravityForce) == tuning.gravityForce
    ensures var m := GravityMagnitude(progress, tuning.gravityForce);
            LengthSquared(DirectionalForce(tuning.gravityAngle, m, env)) == m * m
  {
    DirectionalForceLength(tuning.gravityAngle, GravityMagnitude(progress, tuning.gravityForce), env);
  }

  /** The explosion strength is the full explosion force at progress 0, shrinks
      linearly, and reaches 0 exactly at the end of the explosion; in between a
      positive force stays positive. */
  lemma ExplosionFades(progress: real, later: real, tuning: DisintegrationTuning)
    requires 0.0 < tuning.explosionDuration
    ensures ExplosionStrength(0.0, tuning) == tuning.explosionForce
    ensures ExplosionStrength(tuning.explosionDuration, tuning) == 0.0
    ensures 0.0 <= tuning.explosionForce && progress <= later ==>
              ExplosionStrength(later, tuning) <= ExplosionStrength(progress, tuning)
    ensures 0.0 < tuning.explosionForce && progress < tuning.explosionDuration ==>
              0.0 < ExplosionStrength(progress, tuning)
  {
    var d := tuning.explosionDuration;
    var f := tuning.explosionForce;
    if 0.0 <= f && progress <= later {
      var q, ql := progress / d, later / d;
      assert q * d == progress && ql * d == later;
      if ql < q {
        ScaleNonNegative(ql, q, d);
      }
      ScaleNonNegative(1.0 - ql, 1.0 - q, f);
    }
    if 0.0 < f && progress < d {
      var q := progress / d;
      assert q * d == progress;
      if 1.0 <= q {
        ScaleNonNegative(1.0, q, d);
      }
      ProductPositive(f, 1.0 - q, f * (1.0 - q));
    }
  }

  /** From the end of the explosion on, only gravity and turbulence act. */
  lemma ExplosionWindow(s: Slot, progress: real, tuning: DisintegrationTuning, angle: real, env: Env)
    requires tuning.explosionDuration <= progress
    ensures ExplosionForce(s, progress, tuning, angle, env) == ZERO
  {
  }

  /** The radial push is absent on the original pixel and for a directionality of
      1 or more; otherwise it has length `|strength * (1 - directionality)|` and,
      for a non-negative radial strength, points away from the pixel. */
  lemma RadialForceShape(s: Slot, strength: real, directionality: real, sqrt: real -> real)
    requires IsSqrt(sqrt)
    ensures s.positionX == s.originalX && s.positionY == s.originalY ==>
              RadialForce(s, strength, directionality, sqrt) == ZERO
    ensures 1.0 <= directionality ==> RadialForce(s, strength, directionality, sqrt) == ZERO
    ensures directionality < 1.0 && (s.positionX != s.originalX || s.positionY != s.originalY) ==>
              var rs := strength * (1.0 - directionality);
              var f := RadialForce(s, strength, directionality, sqrt);
              LengthSquared(f) == rs * rs
              && (0.0 <= rs ==> 0.0 <= f.x * (s.positionX - s.originalX) + f.y * (s.positionY - s.originalY))
  {
    var dx := s.positionX - s.originalX;
    var dy := s.positionY - s.originalY;
    var dd := dx * dx + dy * dy;
    Square(dx, dx * dx);
    Square(dy, dy * dy);
    if dx == 0.0 && dy == 0.0 {
      var d := OffsetLength(dx, dy, sqrt);
      Square(d, d * d);
    } else if directionality < 1.0 {
      var d := OffsetLength(dx, dy, sqrt);
      assert 0.0 < dd;
      Square(d, d * d);
      RadialPushShape(dx, dy, d, strength * (1.0 - directionality), dd);
    }
  }

  /** A radial push with a positive distance `d` from the offset `(dx, dy)` has
      length `|rs|` and, for `rs >= 0`, a non-negative component along the offset. */
  lemma RadialPushShape(dx: real, dy: real, d: real, rs: real, dd: real)
    requires 0.0 < d && d * d == dd && dd == dx * dx + dy * dy
    ensures LengthSquared(RadialPush(dx, dy, d, rs)) == rs * rs
    ensures 0.0 <= rs ==> 0.0 <= RadialPush(dx, dy, d, rs).x * dx + RadialPush(dx, dy, d, rs).y * dy
  {
    var ux, uy := dx / d, dy / d;
    ProductPositive(d, d, dd);
    ScaledSquare(ux, d, dx, dd);
    ScaledSquare(uy, d, dy, dd);
    SumCancels(ux * ux, uy * uy, dd, dx * dx, dy * dy);
    var f := RadialPush(dx, dy, d, rs);
    assert f.x == ux * rs && f.y == uy * rs;
    ScaledUnitLength(ux, uy, rs, f.x, f.y);
    if 0.0 <= rs {
      assert dx == ux * d && dy == uy * d;
      ScaledUnitAlong(ux, uy, d, rs, dx, dy, f.x, f.y);
    }
  }

  /** A unit vector scaled by `rs` has squared length `rs * rs`. */
  lemma ScaledUnitLength(ux: real, uy: real, rs: real, fx: real, fy: real)
    requires ux * ux + uy * uy == 1.0 && fx == ux * rs && fy == uy * rs
    ensures fx * fx + fy * fy == rs * rs
  {
    assert fx * fx + fy * fy == (ux * ux + uy * uy) * (rs * rs);
  }

  /** A unit vector scaled by `rs >= 0`, against the same unit vector scaled by
      `d > 0`, has the non-negative dot product `rs * d`. */
  lemma ScaledUnitAlong(ux: real, uy: real, d: real, rs: real, dx: real, dy: real, fx: real, fy: real)
    requires ux * ux + uy * uy == 1.0 && 0.0 < d && 0.0 <= rs
    requires dx == ux * d && dy == uy * d && fx == ux * rs && fy == uy * rs
    ensures 0.0 <= fx * dx + fy * dy
  {
    assert fx * dx + fy * dy == (ux * ux + uy * uy) * (rs * d);
    ScaleNonNegative(0.0, rs, d);
  }

  /** A faded slot in use ends the update inactive and not pending; any other slot
      keeps its flags. Only the flags change. */
  lemma RetiredFlags(s: Slot, inUse: bool)
    ensures var r := Retired(s, inUse);
            r == s.(active := r.active, pending := r.pending)
            && (s.alpha <= FADED_ALPHA && inUse ==> !r.active && !r.pending)
            && (FADED_ALPHA < s.alpha || !inUse ==> r == s)
  {
  }

  /** With a positive fade-out rate, every slot in use is deactivated by the
      update at any progress with `progress * fadeOutRate >= 0.99`, and never
      while `progress * fadeOutRate < 0.99`. */
  lemma FadedOutIsDeactivated(s: Slot, index: nat, deltaTime: real, progress: real,
                              tuning: DisintegrationTuning, angle: real, env: Env)
    requires ExplosionDefined(progress, tuning)
    ensures var r := Disintegrated(s, index, deltaTime, progress, tuning, angle, env, true);
            (0.99 <= progress * tuning.fadeOutRate ==> !r.active && !r.pending)
            && (progress * tuning.fadeOutRate < 0.99 ==> r.active == s.active && r.pending == s.pending)
  {
    var f := Faded(s, index, deltaTime, progress, tuning);
    var moved := Integrated(f, DisintegrationForce(f, progress, tuning, angle, env), tuning.physics, deltaTime);
    assert moved.alpha == FadeOutAlpha(progress, tuning.fadeOutRate);
    assert moved.active == s.active && moved.pending == s.pending;
  }

  /** The engine: its tuning, the shared integrator it extends, the per-particle
      angles and whether they have been drawn. */
  class DisintegrationPhysicsEngine {
    const tuning: DisintegrationTuning
    const engine: PhysicsEngine
    const particleAngles: array<real>
    var initialized: bool

    /** The integrator uses this tuning's physics settings and is idle between
        updates; there are 10000 angle slots. */
    ghost predicate Valid()
      reads this, engine
    {
      engine.settings == tuning.physics && engine.Idle() && particleAngles.Length == ANGLE_SLOTS
    }

    /** The angle slot `index` uses, or 0 for a slot past the angle array (whose
        update never reads it, see `UpdateParticle`). */
    function AngleOf(index: nat): real
      reads particleAngles
    {
      if index < particleAngles.Length then particleAngles[index] else 0.0
    }

    /** `DisintegrationPhysicsEngine(particleConfig, physicsConfig, ...)`: every
        angle starts at 0 and none has been drawn yet. */
    constructor(tuning: DisintegrationTuning)
      ensures Valid() && fresh(engine) && fresh(particleAngles) && this.tuning == tuning && !initialized
      ensures forall i :: 0 <= i < ANGLE_SLOTS ==> particleAngles[i] == 0.0
    {
      this.tuning := tuning;
      engine := new PhysicsEngine(tuning.physics);
      particleAngles := new real[ANGLE_SLOTS](_ => 0.0);
      initialized := false;
    }

    /** `initializeParticleAngles(storage)`: on the first call, draws the angle of
        every slot below the cursor; later calls change nothing. Slots at or past
        the cursor keep their angle (0 after construction) for good. */
    method InitializeParticleAngles(storage: ParticleStorage, env: Env)
      requires Valid() && storage.particleCount <= ANGLE_SLOTS
      modifies this, particleAngles
      ensures initialized && Valid()
      ensures old(initialized) ==> particleAngles[..] == old(particleAngles[..])
      ensures !old(initialized) ==> forall i :: 0 <= i < ANGLE_SLOTS ==>
                particleAngles[i] == if i < storage.particleCount then InitialAngle(i, tuning, env) else old(particleAngles[i])
    {
      if initialized {
        return;
      }
      var i := 0;
      while i < storage.particleCount
        invariant 0 <= i <= storage.particleCount
        invariant forall j :: 0 <= j < ANGLE_SLOTS ==>
                    particleAngles[j] == if j < i then InitialAngle(j, tuning, env) else old(particleAngles[j])
      {
        var variation := if tuning.angleVariation > 0.0 then (env.rand(i, CH_ENGINE_ANGLE) - 0.5) * tuning.angleVariation else 0.0;
        particleAngles[i] := tuning.angle + variation;
        assert particleAngles[i] == InitialAngle(i, tuning, env);
        i := i + 1;
      }
      initialized := true;
    }

    /** Lines 54-60: fade, shrink and spin slot `index`. */
    method Fade(storage: ParticleStorage, index: nat, deltaTime: real, progress: real)
      requires storage.Valid() && index < storage.capacity
      modifies storage.alphas, storage.scales, storage.rotations
      ensures storage.Valid()
      ensures forall i :: 0 <= i < storage.capacity ==>
        storage.At(i) == if i == index then Faded(old(storage.At(i)), index, deltaTime, progress, tuning)
                         else old(storage.At(i))
    {
      var baseRotation := tuning.rotationSpeed * 60.0 * deltaTime;
      var particleVariation := (index % 10) as real / 10.0 * tuning.rotationVariation;
      assert baseRotation * (1.0 + particleVariation) == SpinStep(index, deltaTime, tuning);
      storage.SetLook(index, Max(0.0, 1.0 - progress * tuning.fadeOutRate),
                      Max(0.1, 1.0 - progress * tuning.scaleDownFactor),
                      storage.rotations[index] + baseRotation * (1.0 + particleVariation));
    }

    /** Lines 65-102: gravity, turbulence and, while it lasts, the explosion, all
        added to the empty accumulator. */
    method Push(storage: ParticleStorage, index: nat, progress: real, env: Env)
      requires storage.Sized() && index < storage.capacity
      requires Valid() && ExplosionDefined(progress, tuning)
      requires progress < tuning.explosionDuration ==> index < ANGLE_SLOTS
      modifies engine
      ensures engine.settings == tuning.physics && particleAngles.Length == ANGLE_SLOTS
      ensures engine.Force() == DisintegrationForce(storage.At(index), progress, tuning, AngleOf(index), env)
    {
      var magnitude := tuning.gravityForce * (0.2 + progress * 0.8);
      var time := progress * 5.0;
      ghost var s := storage.At(index);
      ghost var gravity := DirectionalForce(tuning.gravityAngle, magnitude, env);
      ghost var shake := TurbulenceForce(s.positionX, s.positionY, time, tuning.physics, env);
      ghost var blast := ExplosionForce(s, progress, tuning, AngleOf(index), env);
      DisintegrationForceParts(s, progress, tuning, AngleOf(index), env, magnitude, time, gravity, shake, blast);
      engine.AddDirectionalForce(tuning.gravityAngle, magnitude, env);
      engine.AddTurbulence(storage, index, time, env);
      if progress < tuning.explosionDuration {
        Explode(storage, index, progress, env);
      }
    }

    /** Lines 74-101: the push along the particle's angle and the radial push. */
    method Explode(storage: ParticleStorage, index: nat, progress: real, env: Env)
      requires storage.Sized() && index < storage.capacity && index < particleAngles.Length
      requires progress < tuning.explosionDuration && tuning.explosionDuration != 0.0
      modifies engine
      ensures var f := ExplosionForce(storage.At(index), progress, tuning, particleAngles[index], env);
              engine.Force() == Vector2(old(engine.tempForceX) + f.x, old(engine.tempForceY) + f.y)
    {
      var angle := particleAngles[index];
      var strength := tuning.explosionForce * (1.0 - progress / tuning.explosionDuration);
      ghost var s := storage.At(index);
      ghost var push := DirectionalForce(angle, strength, env);
      ghost var radial := RadialForce(s, strength, tuning.directionality, env.sqrt);
      ExplosionForceParts(s, progress, tuning, angle, env, strength, push, radial);
      engine.AddDirectionalForce(angle, strength, env);
      PushAway(storage, index, strength, env);
    }

    /** Lines 86-101: below directionality 1, the push away from the original
        pixel with strength `strength * (1 - directionality)`. */
    method PushAway(storage: ParticleStorage, index: nat, strength: real, env: Env)
      requires storage.Sized() && index < storage.capacity
      modifies engine
      ensures var f := RadialForce(storage.At(index), strength, tuning.directionality, env.sqrt);
              engine.Force() == Vector2(old(engine.tempForceX) + f.x, old(engine.tempForceY) + f.y)
    {
      ghost var s := storage.At(index);
      ghost var f := RadialForce(s, strength, tuning.directionality, env.sqrt);
      if tuning.directionality < 1.0 {
        var dx := storage.positionX[index] - storage.originalX[index];
        var dy := storage.positionY[index] - storage.originalY[index];
        var distance := OffsetLength(dx, dy, env.sqrt);
        var radialStrength := strength * (1.0 - tuning.directionality);
        RadialForceIs(s, strength, tuning.directionality, env.sqrt, dx, dy, distance);
        AddRadialPush(dx, dy, distance, radialStrength);
      } else {
        assert f == ZERO;
      }
      assert engine.Force() == Vector2(old(engine.tempForceX) + f.x, old(engine.tempForceY) + f.y);
      assert storage.At(index) == s;
    }

    /** Lines 92-100: the push away from the original pixel, skipped when the
        particle sits on it. */
    method AddRadialPush(dx: real, dy: real, distance: real, radialStrength: real)
      modifies engine
      ensures var f := RadialPush(dx, dy, distance, radialStrength);
              engine.Force() == Vector2(old(engine.tempForceX) + f.x, old(engine.tempForceY) + f.y)
    {
      if distance > 0.0 {
        var dirX := dx / distance;
        var dirY := dy / distance;
        engine.AddForce(dirX * radialStrength, dirY * radialStrength);
      }
    }

    /** Lines 108-110: deactivate slot `index` once its alpha is at most 0.01. */
    method Retire(storage: ParticleStorage, index: nat)
      requires storage.Valid() && index < storage.capacity
      modifies storage.active, storage.pending
      ensures storage.Valid()
      ensures forall i :: 0 <= i < storage.capacity ==>
        storage.At(i) == if i == index then Retired(old(storage.At(i)), index < storage.particleCount)
                         else old(storage.At(i))
    {
      if storage.alphas[index] <= FADED_ALPHA {
        storage.DeactivateParticle(index);
      }
    }

    /** `updateParticle(storage, index, deltaTime, progress)`: draws the angles on
        the first call, then slot `index` becomes `Disintegrated` of what it was,
        every other slot is untouched, and the integrator is idle again. The
        angle array is read only while the explosion lasts, so only then must the
        slot lie within it. */
    method UpdateParticle(storage: ParticleStorage, index: nat, deltaTime: real, progress: real, env: Env)
      requires storage.Valid() && index < storage.capacity
      requires Valid() && particleAngles !in storage.Columns()
      requires !initialized ==> storage.particleCount <= ANGLE_SLOTS
      requires ExplosionDefined(progress, tuning)
      requires progress < tuning.explosionDuration ==> index < ANGLE_SLOTS
      modifies this, particleAngles, engine, storage.alphas, storage.scales, storage.rotations,
               storage.positionX, storage.positionY, storage.velocityX, storage.velocityY,
               storage.active, storage.pending
      ensures storage.Valid() && Valid() && initialized
      ensures old(initialized) ==> particleAngles[..] == old(particleAngles[..])
      ensures !old(initialized) ==> forall i :: 0 <= i < ANGLE_SLOTS ==>
                particleAngles[i] == if i < storage.particleCount then InitialAngle(i, tuning, env) else old(particleAngles[i])
      ensures forall i :: 0 <= i < storage.capacity ==>
        storage.At(i) == if i == index
          then Disintegrated(old(storage.At(i)), index, deltaTime, progress, tuning, AngleOf(index), env,
                             index < storage.particleCount)
          else old(storage.At(i))
    {
      if !initialized {
        InitializeParticleAngles(storage, env);
      }
      Step(storage, index, deltaTime, progress, env);
    }

    /** Lines 54-110, everything after the angles are drawn. */
    method Step(storage: ParticleStorage, index: nat, deltaTime: real, progress: real, env: Env)
      requires storage.Valid() && index < storage.capacity
      requires Valid() && particleAngles !in storage.Columns() && ExplosionDefined(progress, tuning)
      requires progress < tuning.explosionDuration ==> index < ANGLE_SLOTS
      modifies engine, storage.alphas, storage.scales, storage.rotations,
               storage.positionX, storage.positionY, storage.velocityX, storage.velocityY,
               storage.active, storage.pending
      ensures storage.Valid() && Valid()
      ensures forall i :: 0 <= i < storage.capacity ==>
        storage.At(i) == if i == index
          then Disintegrated(old(storage.At(i)), index, deltaTime, progress, tuning, AngleOf(index), env,
                             index < storage.particleCount)
          else old(storage.At(i))
    {
      Fade(storage, index, deltaTime, progress);
      Accelerate(storage, index, deltaTime, progress, env);
      Retire(storage, index);
    }

    /** Lines 65-105: accumulate the forces, then integrate them. */
    method Accelerate(storage: ParticleStorage, index: nat, deltaTime: real, progress: real, env: Env)
      requires storage.Valid() && index < storage.capacity
      requires Valid() && particleAngles !in storage.Columns() && ExplosionDefined(progress, tuning)
      requires progress < tuning.explosionDuration ==> index < ANGLE_SLOTS
      modifies engine, storage.positionX, storage.positionY, storage.velocityX, storage.velocityY
      ensures storage.Valid() && Valid()
      ensures forall i :: 0 <= i < storage.capacity ==>
        storage.At(i) == if i == index
          then Integrated(old(storage.At(i)), DisintegrationForce(old(storage.At(i)), progress, tuning, AngleOf(index), env),
                          tuning.physics, deltaTime)
          else old(storage.At(i))
    {
      ghost var s := storage.At(index);
      Push(storage, index, progress, env);
      assert storage.At(index) == s;
      ghost var force := engine.Force();
      assert force == DisintegrationForce(s, progress, tuning, AngleOf(index), env);
      engine.ApplyForces(storage, index, deltaTime);
      assert storage.At(index) == Integrated(s, force, tuning.physics, deltaTime);
    }
  }

  /** Below directionality 1, the radial push in terms of the offset `(dx, dy)`
      from the pixel and its length `distance`, named. */
  lemma RadialForceIs(s: Slot, strength: real, directionality: real, sqrt: real -> real,
                      dx: real, dy: real, distance: real)
    requires directionality < 1.0
    requires dx == s.positionX - s.originalX && dy == s.positionY - s.originalY
    requires distance == OffsetLength(dx, dy, sqrt)
    ensures RadialForce(s, strength, directionality, sqrt) == RadialPush(dx, dy, distance, strength * (1.0 - directionality))
  {
  }

  /** The explosion force is the sum of its two parts, named. */
  lemma ExplosionForceParts(s: Slot, progress: real, tuning: DisintegrationTuning, angle: real, env: Env,
                            strength: real, push: Vector2, radial: Vector2)
    requires progress < tuning.explosionDuration && tuning.explosionDuration != 0.0
    requires strength == ExplosionStrength(progress, tuning)
    requires push == DirectionalForce(angle, strength, env)
    requires radial == RadialForce(s, strength, tuning.directionality, env.sqrt)
    ensures ExplosionForce(s, progress, tuning, angle, env) == Vector2(push.x + radial.x, push.y + radial.y)
  {
  }

  /** The accumulated force is the sum of its three parts, named. */
  lemma DisintegrationForceParts(s: Slot, progress: real, tuning: DisintegrationTuning, angle: real, env: Env,
                                 magnitude: real, time: real, gravity: Vector2, shake: Vector2, blast: Vector2)
    requires ExplosionDefined(progress, tuning)
    requires magnitude == GravityMagnitude(progress, tuning.gravityForce) && time == progress * 5.0
    requires gravity == DirectionalForce(tuning.gravityAngle, magnitude, env)
    requires shake == TurbulenceForce(s.positionX, s.positionY, time, tuning.physics, env)
    requires blast == ExplosionForce(s, progress, tuning, angle, env)
    ensures DisintegrationForce(s, progress, tuning, angle, env)
            == Vector2(gravity.x + shake.x + blast.x, gravity.y + shake.y + blast.y)
  {
  }
}
