/** The plain-data configuration records and enumerations the simulation reads.
    Each record keeps only the fields some modelled operation reads. */
module Config {
  import opened Vectors

  /** `ParticleShape` (particle/Particle.kt) */
  datatype ParticleShape = CIRCLE | SQUARE | CUSTOM

  /** `ParticleEffect` (particle/Particle.kt) */
  datatype ParticleEffect = DISINTEGRATION | ASSEMBLY

  /** `EmissionPattern` (emission/EmissionStrategy.kt) */
  datatype EmissionPattern = LEFT_TO_RIGHT | RIGHT_TO_LEFT | TOP_TO_BOTTOM | BOTTOM_TO_TOP | CENTER_OUT | OUTSIDE_IN

  /** `EmissionType` (emission/EmissionStrategy.kt) */
  datatype EmissionType = INSTANT | PATTERNED

  /** `BoundaryBehavior` (config/DisintegrationConfig.kt) */
  datatype BoundaryBehavior = NONE | BOUNCE | WRAP | DESTROY

  /** `ParticleConfig`; the optional colour transform is not read by the simulation. */
  datatype ParticleConfig = ParticleConfig(
    size: real,
    shape: ParticleShape,
    velocityMagnitude: real,
    gravity: real,
    friction: real)

  /** `EmissionConfig`. The last five flags are read by the emission controller
      and the particle system although the record declares only the first four
      fields; they are explicit fields here. */
  datatype EmissionConfig = EmissionConfig(
    emissionType: EmissionType,
    pattern: EmissionPattern,
    particleCount: int,
    durationFactor: real,
    randomSizes: bool,
    randomAlphas: bool,
    randomizeColors: bool,
    randomRotations: bool,
    randomizeDelays: bool)

  /** `AnimationConfig`; `easing` is the Compose easing curve as a function, and the
      mutable `repeatCount` is the starting value the animation clock copies. */
  datatype AnimationConfig = AnimationConfig(
    duration: int,
    easing: real -> real,
    repeatCount: int,
    randomizeTimings: bool,
    timingVariation: real,
    randomizeAlpha: bool,
    randomizeScale: bool,
    addOscillation: bool,
    oscillationStrength: real,
    oscillationFrequency: real)

  /** The open base class `PhysicsConfig` (config/PhysicsConfig.kt:6-18). */
  datatype PhysicsSettings = PhysicsSettings(
    dampingFactor: real,
    minVelocity: real,
    turbulenceEnabled: bool,
    turbulenceScale: real,
    turbulenceStrength: real,
    forceMultiplier: real,
    velocityMultiplier: real)

  /** The physics-engine `DisintegrationConfig` subclass (config/PhysicsConfig.kt:23-40). */
  datatype DisintegrationTuning = DisintegrationTuning(
    physics: PhysicsSettings,
    angle: real,
    angleVariation: real,
    directionality: real,
    explosionForce: real,
    explosionDuration: real,
    gravityForce: real,
    gravityAngle: real,
    rotationSpeed: real,
    rotationVariation: real,
    scaleDownFactor: real,
    fadeOutRate: real)

  /** The physics-engine `AssemblyConfig` subclass (config/PhysicsConfig.kt:45-61). */
  datatype AssemblyTuning = AssemblyTuning(
    physics: PhysicsSettings,
    gatheringPhaseEnd: real,
    springPhaseEnd: real,
    initialVelocityDamping: real,
    approachSpeed: real,
    springStiffness: real,
    springDamping: real,
    finalSnapDistance: real,
    initialScale: real,
    rotationFadeOutRate: real,
    fadeInRate: real)

  /** The data class `DisintegrationConfig` (config/DisintegrationConfig.kt), the
      fields the progress-driven disintegration reads. */
  datatype DisintegrationConfig = DisintegrationConfig(
    gravity: real,
    friction: real,
    explosionStrength: real,
    explosionDuration: real,
    explosionDirectionality: real,
    explosionDirection: real,
    windEnabled: bool,
    windStrength: real,
    windDirection: real,
    windGustiness: real,
    vortexEnabled: bool,
    vortexStrength: real,
    vortexPosition: Vector2,
    vortexRadius: real,
    vortexDecay: real,
    vortexDirection: real,
    boundaryBehavior: BoundaryBehavior,
    boundaryElasticity: real,
    rotationSpeed: real,
    scaleDownFactor: real,
    fadeOutRate: real,
    turbulenceStrength: real,
    turbulenceFrequency: real,
    alphaVariationRange: real,
    scaleVariationRange: real,
    lifespanVariationRange: real,
    rotationVariationRange: real)

  /** The data class `AssemblyConfig` (config/AssemblyConfig.kt), the fields the
      progress-driven assembly reads. */
  datatype AssemblyConfig = AssemblyConfig(
    initialScale: real,
    finalScale: real,
    fadeInRate: real,
    rotationSpeed: real,
    oscillationStrength: real,
    oscillationFrequency: real,
    turbulenceStrength: real,
    alphaVariationRange: real,
    scaleVariationRange: real,
    rotationVariationRange: real)

  /** The integer shape code the particle store records (particle/ParticleSystem.kt:196-200). */
  function ShapeCode(shape: ParticleShape): (code: int)
    ensures 0 <= code <= 2
    ensures code == 0 <==> shape == CIRCLE
    ensures code == 1 <==> shape == SQUARE
    ensures code == 2 <==> shape == CUSTOM
  {
    match shape
    case CIRCLE => 0
    case SQUARE => 1
    case CUSTOM => 2
  }
}

/** Colours and the captured picture. */
module Pixels {

  /** A Compose `Color` reduced to its four channels in [0, 1]. */
  datatype Rgba = Rgba(red: real, green: real, blue: real, alpha: real)

  /** `Color.White`, the colour a fresh store slot holds. */
  const WHITE: Rgba := Rgba(1.0, 1.0, 1.0, 1.0)

  /** An `ImageBitmap` together with its `toPixelMap()`: the size and the colour
      at every pixel. Android bitmaps are never empty, see `Valid`. */
  datatype Bitmap = Bitmap(width: int, height: int, pixel: (int, int) -> Rgba)
  {
    predicate Valid()
    {
      width > 0 && height > 0
    }
  }

  /** The sampling filter every generator applies: the pixel is visible enough. */
  predicate Visible(c: Rgba)
  {
    c.alpha > 0.1
  }
}
