/** The force-based assembly engine (physics/AssemblyPhysicsEngine.kt): particles
    fade in and grow, then move toward their original pixel in three phases —
    attraction with turbulence, a stiffening spring, and a final settle that
    either snaps onto the pixel or interpolates toward it. */
module AssemblyEngine {
  import opened Numeric
  import opened Oracles
  import opened Vectors
  import opened Config
  import opened Environment
  import opened Storage
  import opened Physics

  /** The three branches of the `when` in `updateParticle`. */
  datatype Phase = Gathering | Springing | Settling

  /** Which branch runs: the first threshold that progress is below. */
  function PhaseAt(progress: real, tuning: AssemblyTuning): Phase
  {
    if progress < tuning.gatheringPhaseEnd then Gathering
    else if progress < tuning.springPhaseEnd then Springing
    else Settling
  }

  /** `min(1f, progress * fadeInRate)` */
  function FadeInAlpha(progress: real, fadeInRate: real): real
  {
    Min(1.0, progress * fadeInRate)
  }

  /** `initialScale + (1f - initialScale) * progress` */
  function GrowScale(progress: real, initialScale: real): real
  {
    initialScale + (1.0 - initialScale) * progress
  }

  /** `max(0f, 1f - progress * rotationFadeOutRate)` */
  function RotationFactor(progress: real, rotationFadeOutRate: real): real
  {
    Max(0.0, 1.0 - progress * rotationFadeOutRate)
  }

  /** The rotation after one step: it turns by `30 * dt * factor` while the
      factor is positive and stays put otherwise. */
  function Spun(rotation: real, deltaTime: real, factor: real): real
  {
    if factor > 0.0 then rotation + 30.0 * deltaTime * factor else rotation
  }

  /** A velocity component after the early damping, which applies below
      progress 0.2 only. */
  function EarlyDamped(v: real, progress: real, damping: real): real
  {
    if progress < 0.2 then v * damping else v
  }

  /** The slot after the visual updates and the early damping (lines 25-39). */
  function Prepared(s: Slot, deltaTime: real, progress: real, tuning: AssemblyTuning): Slot
  {
    s.(alpha := FadeInAlpha(progress, tuning.fadeInRate),
       scale := GrowScale(progress, tuning.initialScale),
       rotation := Spun(s.rotation, deltaTime, RotationFactor(progress, tuning.rotationFadeOutRate)),
       velocityX := EarlyDamped(s.velocityX, progress, tuning.initialVelocityDamping),
       velocityY := EarlyDamped(s.velocityY, progress, tuning.initialVelocityDamping))
  }

  /** `phaseProgress`, the progress through the spring phase. */
  function SpringPhaseProgress(progress: real, tuning: AssemblyTuning): real
    requires PhaseAt(progress, tuning) == Springing
  {
    (progress - tuning.gatheringPhaseEnd) / (tuning.springPhaseEnd - tuning.gatheringPhaseEnd)
  }

  /** The factor `0.5 + phaseProgress * 0.5` that stiffens and damps the spring. */
  function SpringRamp(progress: real, tuning: AssemblyTuning): real
    requires PhaseAt(progress, tuning) == Springing
  {
    0.5 + SpringPhaseProgress(progress, tuning) * 0.5
  }

  /** The gathering force: a pull toward the pixel with half the approach speed
      (minimum distance 1), plus turbulence at time `seed + 3 * progress`. */
  function GatherForce(s: Slot, progress: real, tuning: AssemblyTuning, seed: real, env: Env): Vector2
    requires IsSqrt(env.sqrt)
  {
    var pull := AttractionForce(s.originalX - s.positionX, s.originalY - s.positionY,
                                tuning.approachSpeed * 0.5, 1.0, env.sqrt);
    var shake := TurbulenceForce(s.positionX, s.positionY, seed + progress * 3.0, tuning.physics, env);
    Vector2(pull.x + shake.x, pull.y + shake.y)
  }

  /** The spring-phase force: a spring toward the pixel whose stiffness and
      damping are scaled by the ramp, plus turbulence at time `seed + 5 * progress`. */
  function SpringPhaseForce(s: Slot, progress: real, tuning: AssemblyTuning, seed: real, env: Env): Vector2
    requires PhaseAt(progress, tuning) == Springing
  {
    var ramp := SpringRamp(progress, tuning);
    var pull := SpringForce(s, s.originalX, s.originalY, tuning.springStiffness * ramp, tuning.springDamping * ramp);
    var shake := TurbulenceForce(s.positionX, s.positionY, seed + progress * 5.0, tuning.physics, env);
    Vector2(pull.x + shake.x, pull.y + shake.y)
  }

  /** The gathering force is the sum of its two parts, named. */
  lemma GatherForceParts(s: Slot, progress: real, tuning: AssemblyTuning, seed: real, env: Env,
                         time: real, pull: Vector2, shake: Vector2)
    requires IsSqrt(env.sqrt)
    requires time == seed + progress * 3.0
    requires pull == AttractionForce(s.originalX - s.positionX, s.originalY - s.positionY,
                                     tuning.approachSpeed * 0.5, 1.0, env.sqrt)
    requires shake == TurbulenceForce(s.positionX, s.positionY, time, tuning.physics, env)
    ensures GatherForce(s, progress, tuning, seed, env) == Vector2(pull.x + shake.x, pull.y + shake.y)
  {
  }

  /** The spring-phase force is the sum of its two parts, named. */
  lemma SpringPhaseForceParts(s: Slot, progress: real, tuning: AssemblyTuning, seed: real, env: Env,
                              ramp: real, time: real, pull: Vector2, shake: Vector2)
    requires PhaseAt(progress, tuning) == Springing
    requires ramp == SpringRamp(progress, tuning)
    requires time == seed + progress * 5.0
    requires pull == SpringForce(s, s.originalX, s.originalY, tuning.springStiffness * ramp, tuning.springDamping * ramp)
    requires shake == TurbulenceForce(s.positionX, s.positionY, time, tuning.physics, env)
    ensures SpringPhaseForce(s, progress, tuning, seed, env) == Vector2(pull.x + shake.x, pull.y + shake.y)
  {
  }

  /** The force the phase branch accumulates for slot `s` (the accumulator starts
      empty): gathering or spring force, or nothing while settling. */
  function PhaseForce(s: Slot, progress: real, tuning: AssemblyTuning, seed: real, env: Env): Vector2
    requires IsSqrt(env.sqrt)
  {
    match PhaseAt(progress, tuning)
    case Gathering => GatherForce(s, progress, tuning, seed, env)
    case Springing => SpringPhaseForce(s, progress, tuning, seed, env)
    case Settling => ZERO
  }

  /** Within the snap distance of the original pixel (strictly). */
  predicate WithinSnap(s: Slot, snapDistance: real)
  {
    var dx := s.originalX - s.positionX;
    var dy := s.originalY - s.positionY;
    dx * dx + dy * dy < snapDistance * snapDistance
  }

  /** The settle branch: snap onto the pixel at rest, or interpolate toward it by
      `min(1, dt * 10)` and keep 90% of the velocity. Other phases move nothing. */
  function Settled(s: Slot, deltaTime: real, progress: real, tuning: AssemblyTuning): Slot
  {
    if PhaseAt(progress, tuning) != Settling then s
    else if WithinSnap(s, tuning.finalSnapDistance) then
      s.(positionX := s.originalX, positionY := s.originalY, velocityX := 0.0, velocityY := 0.0)
    else
      var t := Min(1.0, deltaTime * 10.0);
      s.(positionX := Lerp(s.positionX, s.originalX, t), positionY := Lerp(s.positionY, s.originalY, t),
         velocityX := s.velocityX * 0.9, velocityY := s.velocityY * 0.9)
  }

  /** One whole `updateParticle` on slot `s`: prepare, run the phase branch, then
      integrate the accumulated force. */
  function Assembled(s: Slot, deltaTime: real, progress: real, tuning: AssemblyTuning, seed: real, env: Env): Slot
    requires IsSqrt(env.sqrt)
  {
    var p := Prepared(s, deltaTime, progress, tuning);
    Integrated(Settled(p, deltaTime, progress, tuning), PhaseForce(p, progress, tuning, seed, env), tuning.physics, deltaTime)
  }

  // ---------------------------------------------------------------------------
  // Properties of the specification

  /** Alpha never exceeds 1; it is 0 at progress 0 and reaches 1 once
      progress * fadeInRate does; with a non-negative rate it never decreases. */
  lemma FadeInAlphaShape(progress: real, later: real, fadeInRate: real)
    ensures FadeInAlpha(progress, fadeInRate) <= 1.0
    ensures FadeInAlpha(0.0, fadeInRate) == 0.0
    ensures 1.0 <= progress * fadeInRate ==> FadeInAlpha(progress, fadeInRate) == 1.0
    ensures 0.0 <= fadeInRate && progress <= later ==> FadeInAlpha(progress, fadeInRate) <= FadeInAlpha(later, fadeInRate)
  {
    if 0.0 <= fadeInRate && progress <= later {
      ScaleNonNegative(progress, later, fadeInRate);
    }
  }

  /** The scale starts at `initialScale`, ends at 1, and in between stays
      between the two when `initialScale <= 1`. */
  lemma GrowScaleShape(progress: real, initialScale: real)
    ensures GrowScale(0.0, initialScale) == initialScale
    ensures GrowScale(1.0, initialScale) == 1.0
    ensures initialScale <= 1.0 && 0.0 <= progress <= 1.0 ==>
              initialScale <= GrowScale(progress, initialScale) <= 1.0
  {
    if initialScale <= 1.0 && 0.0 <= progress <= 1.0 {
      var gap := 1.0 - initialScale;
      ScaleNonNegative(0.0, progress, gap);
      ScaleNonNegative(progress, 1.0, gap);
      assert (1.0 - initialScale) * progress == progress * gap;
    }
  }

  /** The rotation changes only while `1 - progress * rotationFadeOutRate > 0`;
      from then on it is frozen. */
  lemma RotationStopsWhenFaded(rotation: real, deltaTime: real, progress: real, rate: real)
    ensures progress * rate >= 1.0 ==> Spun(rotation, deltaTime, RotationFactor(progress, rate)) == rotation
    ensures progress * rate < 1.0 ==>
              Spun(rotation, deltaTime, RotationFactor(progress, rate)) == rotation + 30.0 * deltaTime * (1.0 - progress * rate)
  {
  }

  /** The early damping scales the velocity below progress 0.2 and leaves it
      alone from there on. */
  lemma EarlyDampingWindow(s: Slot, deltaTime: real, progress: real, tuning: AssemblyTuning)
    ensures progress < 0.2 ==>
              Prepared(s, deltaTime, progress, tuning).velocityX == s.velocityX * tuning.initialVelocityDamping
              && Prepared(s, deltaTime, progress, tuning).velocityY == s.velocityY * tuning.initialVelocityDamping
    ensures 0.2 <= progress ==>
              Prepared(s, deltaTime, progress, tuning).velocityX == s.velocityX
              && Prepared(s, deltaTime, progress, tuning).velocityY == s.velocityY
    ensures Prepared(s, deltaTime, progress, tuning).positionX == s.positionX
            && Prepared(s, deltaTime, progress, tuning).positionY == s.positionY
  {
  }

  /** The phase thresholds partition progress: each phase holds exactly on its
      interval. */
  lemma PhasePartition(progress: real, tuning: AssemblyTuning)
    ensures PhaseAt(progress, tuning) == Gathering <==> progress < tuning.gatheringPhaseEnd
    ensures PhaseAt(progress, tuning) == Springing <==>
              tuning.gatheringPhaseEnd <= progress < tuning.springPhaseEnd
    ensures PhaseAt(progress, tuning) == Settling <==>
              tuning.gatheringPhaseEnd <= progress && tuning.springPhaseEnd <= progress
  {
  }

  /** Inside the spring phase the phase progress lies in [0, 1), so the spring
      ramp lies in [0.5, 1). */
  lemma SpringPhaseProgressInRange(progress: real, tuning: AssemblyTuning)
    requires PhaseAt(progress, tuning) == Springing
    ensures 0.0 <= SpringPhaseProgress(progress, tuning) < 1.0
    ensures 0.5 <= SpringRamp(progress, tuning) < 1.0
  {
    var span := tuning.springPhaseEnd - tuning.gatheringPhaseEnd;
    var into := progress - tuning.gatheringPhaseEnd;
    QuotientInUnitRange(into, span);
  }

  lemma QuotientInUnitRange(a: real, b: real)
    requires 0.0 <= a < b
    ensures 0.0 <= a / b < 1.0
  {
    var q := a / b;
    assert q * b == a;
    if q >= 1.0 {
      ScaleNonNegative(1.0, q, b);
    }
  }

  /** The settle interpolation never passes the target: with dt >= 0 each
      coordinate ends between where it was and its original pixel. */
  lemma SettleApproaches(s: Slot, deltaTime: real, progress: real, tuning: AssemblyTuning)
    requires 0.0 <= deltaTime
    requires PhaseAt(progress, tuning) == Settling && !WithinSnap(s, tuning.finalSnapDistance)
    ensures Min(s.positionX, s.originalX) <= Settled(s, deltaTime, progress, tuning).positionX <= Max(s.positionX, s.originalX)
    ensures Min(s.positionY, s.originalY) <= Settled(s, deltaTime, progress, tuning).positionY <= Max(s.positionY, s.originalY)
    ensures Settled(s, deltaTime, progress, tuning).velocityX == s.velocityX * 0.9
            && Settled(s, deltaTime, progress, tuning).velocityY == s.velocityY * 0.9
  {
    var t := Min(1.0, deltaTime * 10.0);
    LerpShape(s.positionX, s.originalX, t);
    LerpShape(s.positionY, s.originalY, t);
  }

  /** A particle in the settle phase within the snap distance ends the update on
      its original pixel at rest: the snap adds no force, so `applyForces`
      leaves it there. */
  lemma SnapIsFinal(s: Slot, deltaTime: real, progress: real, tuning: AssemblyTuning, seed: real, env: Env)
    requires IsSqrt(env.sqrt)
    requires PhaseAt(progress, tuning) == Settling
    requires WithinSnap(s, tuning.finalSnapDistance)
    ensures Assembled(s, deltaTime, progress, tuning, seed, env).positionX == s.originalX
    ensures Assembled(s, deltaTime, progress, tuning, seed, env).positionY == s.originalY
    ensures Assembled(s, deltaTime, progress, tuning, seed, env).velocityX == 0.0
    ensures Assembled(s, deltaTime, progress, tuning, seed, env).velocityY == 0.0
  {
    var p := Prepared(s, deltaTime, progress, tuning);
    assert WithinSnap(p, tuning.finalSnapDistance);
    var snapped := Settled(p, deltaTime, progress, tuning);
    assert PhaseForce(p, progress, tuning, seed, env) == ZERO;
    RestIsFixed(snapped, tuning.physics, deltaTime);
  }

  /** The engine: its tuning, the shared integrator it extends and the
      per-particle turbulence seeds, one fixed draw in [0, 1000) per slot. */
  class AssemblyPhysicsEngine {
    const tuning: AssemblyTuning
    const engine: PhysicsEngine
    const particleSeeds: seq<real>

    /** The integrator uses this tuning's physics settings and is idle between
        updates; there are 10000 seeds. */
    ghost predicate Valid()
      reads this, engine
    {
      engine.settings == tuning.physics && engine.Idle() && |particleSeeds| == 10000
    }

    /** The seed `updateParticle` uses for slot `index`. */
    function SeedOf(index: nat): real
      requires |particleSeeds| == 10000
    {
      particleSeeds[index % |particleSeeds|]
    }

    /** `AssemblyPhysicsEngine(particleConfig, physicsConfig, ...)`: the seeds are
        drawn once, at construction. */
    constructor(tuning: AssemblyTuning, env: Env)
      ensures Valid() && fresh(engine) && this.tuning == tuning
      ensures forall i :: 0 <= i < 10000 ==> particleSeeds[i] == env.rand(i, CH_ENGINE_SEED) * 1000.0
    {
      this.tuning := tuning;
      engine := new PhysicsEngine(tuning.physics);
      particleSeeds := seq(10000, i => env.rand(i, CH_ENGINE_SEED) * 1000.0);
    }

    /** Each seed lies in [0, 1000) when the random source draws from [0, 1). */
    lemma SeedsInRange(env: Env, index: nat)
      requires |particleSeeds| == 10000
      requires IsUnitRng(env.rand)
      requires forall i :: 0 <= i < 10000 ==> particleSeeds[i] == env.rand(i, CH_ENGINE_SEED) * 1000.0
      ensures 0.0 <= SeedOf(index) < 1000.0
    {
      var i := index % 10000;
      var r := env.rand(i, CH_ENGINE_SEED);
      assert particleSeeds[i] == r * 1000.0;
      ScaleNonNegative(0.0, r, 1000.0);
    }

    /** Lines 25-39: the visual updates and the early velocity damping. */
    method Prepare(storage: ParticleStorage, index: nat, deltaTime: real, progress: real)
      requires storage.Valid() && index < storage.capacity
      modifies storage.alphas, storage.scales, storage.rotations,
               storage.positionX, storage.positionY, storage.velocityX, storage.velocityY
      ensures storage.Valid()
      ensures forall i :: 0 <= i < storage.capacity ==>
        storage.At(i) == if i == index then Prepared(old(storage.At(i)), deltaTime, progress, tuning)
                         else old(storage.At(i))
    {
      var rotationFactor := RotationFactor(progress, tuning.rotationFadeOutRate);
      var rotation := storage.rotations[index];
      if rotationFactor > 0.0 {
        rotation := rotation + 30.0 * deltaTime * rotationFactor;
      }
      storage.SetLook(index, FadeInAlpha(progress, tuning.fadeInRate), GrowScale(progress, tuning.initialScale), rotation);
      if progress < 0.2 {
        storage.SetMotion(index, storage.positionX[index], storage.positionY[index],
                          storage.velocityX[index] * tuning.initialVelocityDamping,
                          storage.velocityY[index] * tuning.initialVelocityDamping);
      }
    }

    /** Lines 42-108: the phase branch, which either accumulates a force or, in
        the settle phase, moves the particle directly. */
    method RunPhase(storage: ParticleStorage, index: nat, deltaTime: real, progress: real, env: Env)
      requires storage.Valid() && index < storage.capacity
      requires Valid() && IsSqrt(env.sqrt)
      modifies engine, storage.positionX, storage.positionY, storage.velocityX, storage.velocityY
      ensures storage.Valid() && engine.settings == tuning.physics && |particleSeeds| == 10000
      ensures engine.Force() == PhaseForce(old(storage.At(index)), progress, tuning, SeedOf(index), env)
      ensures forall i :: 0 <= i < storage.capacity ==>
        storage.At(i) == if i == index then Settled(old(storage.At(i)), deltaTime, progress, tuning)
                         else old(storage.At(i))
    {
      match PhaseAt(progress, tuning)
      case Gathering =>
        Gather(storage, index, progress, env);
      case Springing =>
        Spring(storage, index, progress, env);
      case Settling =>
        Settle(storage, index, deltaTime, progress);
    }

    /** Lines 44-57: pull toward the pixel with half the approach speed, plus
        turbulence at time `seed + 3 * progress`. */
    method Gather(storage: ParticleStorage, index: nat, progress: real, env: Env)
      requires storage.Sized() && index < storage.capacity
      requires Valid() && IsSqrt(env.sqrt) && PhaseAt(progress, tuning) == Gathering
      modifies engine
      ensures engine.settings == tuning.physics && |particleSeeds| == 10000
      ensures engine.Force() == GatherForce(storage.At(index), progress, tuning, SeedOf(index), env)
    {
      var strength := tuning.approachSpeed * 0.5;
      var seed := particleSeeds[index % |particleSeeds|];
      var time := seed + progress * 3.0;
      ghost var s := storage.At(index);
      ghost var pull := AttractionForce(s.originalX - s.positionX, s.originalY - s.positionY, strength, 1.0, env.sqrt);
      ghost var shake := TurbulenceForce(s.positionX, s.positionY, time, tuning.physics, env);
      GatherForceParts(s, progress, tuning, seed, env, time, pull, shake);
      engine.AddAttractionForce(storage, index, storage.originalX[index], storage.originalY[index],
                                strength, 1.0, env.sqrt);
      engine.AddTurbulence(storage, index, time, env);
    }

    /** Lines 60-81: a spring toward the pixel whose stiffness and damping ramp
        up through the phase, plus turbulence at time `seed + 5 * progress`. */
    method Spring(storage: ParticleStorage, index: nat, progress: real, env: Env)
      requires storage.Sized() && index < storage.capacity
      requires Valid() && PhaseAt(progress, tuning) == Springing
      modifies engine
      ensures engine.settings == tuning.physics && |particleSeeds| == 10000
      ensures engine.Force() == SpringPhaseForce(storage.At(index), progress, tuning, SeedOf(index), env)
    {
      var phaseProgress := (progress - tuning.gatheringPhaseEnd) / (tuning.springPhaseEnd - tuning.gatheringPhaseEnd);
      var ramp := 0.5 + phaseProgress * 0.5;
      assert ramp == SpringRamp(progress, tuning);
      var stiffness := tuning.springStiffness * ramp;
      var damping := tuning.springDamping * ramp;
      var seed := particleSeeds[index % |particleSeeds|];
      var time := seed + progress * 5.0;
      ghost var s := storage.At(index);
      ghost var pull := SpringForce(s, s.originalX, s.originalY, stiffness, damping);
      ghost var shake := TurbulenceForce(s.positionX, s.positionY, time, tuning.physics, env);
      SpringPhaseForceParts(s, progress, tuning, seed, env, ramp, time, pull, shake);
      engine.AddSpringForce(storage, index, storage.originalX[index], storage.originalY[index], stiffness, damping);
      engine.AddTurbulence(storage, index, time, env);
    }

    /** Lines 85-107: snap onto the pixel, or interpolate toward it. */
    method Settle(storage: ParticleStorage, index: nat, deltaTime: real, progress: real)
      requires storage.Valid() && index < storage.capacity && PhaseAt(progress, tuning) == Settling
      modifies storage.positionX, storage.positionY, storage.velocityX, storage.velocityY
      ensures storage.Valid()
      ensures forall i :: 0 <= i < storage.capacity ==>
        storage.At(i) == if i == index then Settled(old(storage.At(i)), deltaTime, progress, tuning)
                         else old(storage.At(i))
    {
      var dx := storage.originalX[index] - storage.positionX[index];
      var dy := storage.originalY[index] - storage.positionY[index];
      var distSq := dx * dx + dy * dy;
      if distSq < tuning.finalSnapDistance * tuning.finalSnapDistance {
        storage.SetMotion(index, storage.originalX[index], storage.originalY[index], 0.0, 0.0);
      } else {
        var t := Min(1.0, deltaTime * 10.0);
        storage.SetMotion(index, Lerp(storage.positionX[index], storage.originalX[index], t),
                          Lerp(storage.positionY[index], storage.originalY[index], t),
                          storage.velocityX[index] * 0.9, storage.velocityY[index] * 0.9);
      }
    }

    /** `updateParticle(storage, index, deltaTime, progress)`: slot `index` becomes
        `Assembled` of what it was, every other slot is untouched, and the
        integrator is idle again. */
    method UpdateParticle(storage: ParticleStorage, index: nat, deltaTime: real, progress: real, env: Env)
      requires storage.Valid() && index < storage.capacity
      requires Valid() && IsSqrt(env.sqrt)
      modifies engine, storage.alphas, storage.scales, storage.rotations,
               storage.positionX, storage.positionY, storage.velocityX, storage.velocityY
      ensures storage.Valid() && Valid()
      ensures forall i :: 0 <= i < storage.capacity ==>
        storage.At(i) == if i == index
          then Assembled(old(storage.At(i)), deltaTime, progress, tuning, SeedOf(index), env)
          else old(storage.At(i))
    {
      Prepare(storage, index, deltaTime, progress);
      RunPhase(storage, index, deltaTime, progress, env);
      engine.ApplyForces(storage, index, deltaTime);
    }
  }
}
