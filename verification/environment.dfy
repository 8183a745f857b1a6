/** The foreign functions one simulation run sees: `kotlin.math` and the global
    `kotlin.random.Random`, passed in as values. */
module Environment {
  import opened Oracles
  import opened Vectors

  /** `rand(slot, channel)` is the `Random.nextFloat()` drawn at call site
      `channel` for particle slot (or loop step) `slot`. `randomVector` stands for
      `Vector2.random(magnitude)`, which the emission strategies call but no
      source file defines; nothing is assumed of it, nor of `atan2` and `pow`. */
  datatype Env = Env(
    sqrt: real -> real,
    sin: real -> real,
    cos: real -> real,
    rand: (int, int) -> real,
    randomVector: (int, real) -> Vector2,
    atan2: (real, real) -> real,
    pow: (real, real) -> real)
  {
    ghost predicate Valid()
    {
      IsSqrt(sqrt) && IsTrig(sin, cos) && IsUnitRng(rand)
    }
  }

  // One channel per call site of `Random.nextFloat()`.
  // InstantEmissionStrategy
  const CH_INSTANT_OFFSET_X: int := 0
  const CH_INSTANT_OFFSET_Y: int := 1
  const CH_INSTANT_SIZE: int := 2
  // PatternedEmissionStrategy
  const CH_PATTERNED_ANGLE: int := 3
  const CH_PATTERNED_SIZE: int := 4
  // ParticleSystem
  const CH_SYSTEM_SIZE: int := 5
  const CH_SYSTEM_ALPHA: int := 6
  const CH_SYSTEM_SCALE: int := 7
  const CH_SYSTEM_ANGLE: int := 8
  const CH_SYSTEM_DISTANCE: int := 9
  // EmissionController
  const CH_EMIT_SIZE: int := 10
  const CH_EMIT_ALPHA: int := 11
  const CH_EMIT_BRIGHTNESS: int := 12
  const CH_EMIT_ROTATION: int := 13
  const CH_EMIT_ANGLE: int := 14
  const CH_EMIT_SPEED: int := 15
  const CH_EMIT_DELAY: int := 16
  // AnimationController
  const CH_ANIM_OFFSET: int := 17
  const CH_ANIM_ALPHA: int := 18
  const CH_ANIM_FADE_IN: int := 19
  const CH_ANIM_FADE_OUT: int := 20
  const CH_ANIM_SCALE: int := 21
  const CH_ANIM_PHASE: int := 22
  // AssemblyPhysicsEngine and DisintegrationPhysicsEngine
  const CH_ENGINE_SEED: int := 23
  const CH_ENGINE_ANGLE: int := 24
  // AssemblyPhysics
  const CH_ASM_ANGLE: int := 25
  const CH_ASM_DISTANCE: int := 26
  const CH_ASM_ALPHA: int := 27
  const CH_ASM_SCALE: int := 28
  const CH_ASM_PHASE: int := 29
  const CH_ASM_FREQUENCY: int := 30
  const CH_ASM_TURBULENCE_X: int := 31
  const CH_ASM_TURBULENCE_Y: int := 32
  const CH_ASM_ROTATION: int := 33
  // DisintegrationPhysics
  const CH_DIS_MIXED_ANGLE: int := 34
  const CH_DIS_ANGLE: int := 35
  const CH_DIS_SPEED: int := 36
  const CH_DIS_ALPHA: int := 37
  const CH_DIS_SCALE: int := 38
  const CH_DIS_ROTATION: int := 39
  const CH_DIS_DIRECTION: int := 40
  const CH_DIS_TURBULENCE_X: int := 41
  const CH_DIS_TURBULENCE_Y: int := 42
  const CH_DIS_LIFESPAN: int := 43
}
