/** One particle as an object (particle/Particle.kt): physics integration, force
    accumulation and the progress-driven look. */
module Particles {
  import opened Numeric
  import opened Vectors
  import opened Config
  import opened Pixels

  /** The lower bound `applyForce` puts on the mass before dividing by it. */
  const MIN_MASS: real := 0.001

  /** `(progress - delay).coerceIn(0f, 1f)`: the particle's own progress. It is 0
      until the animation has passed the particle's delay, then follows the
      animation one for one, and saturates at 1. */
  function AdjustedProgress(progress: real, delay: real): (r: real)
    ensures 0.0 <= r <= 1.0
    ensures r == 0.0 <==> progress <= delay
    ensures r == 1.0 <==> progress - delay >= 1.0
    ensures delay <= progress <= delay + 1.0 ==> r == progress - delay
  {
    Clamp(progress - delay, 0.0, 1.0)
  }

  /** The alpha `updateVisuals` assigns: disintegration fades out, assembly in. */
  function AlphaAt(effect: ParticleEffect, adjusted: real): (a: real)
    requires 0.0 <= adjusted <= 1.0
    ensures 0.0 <= a <= 1.0
    ensures effect == DISINTEGRATION ==> (a == 0.0 <==> adjusted == 1.0) && (a == 1.0 <==> adjusted == 0.0)
    ensures effect == ASSEMBLY ==> (a == 0.0 <==> adjusted == 0.0) && (a == 1.0 <==> adjusted == 1.0)
  {
    match effect
    case DISINTEGRATION => 1.0 - adjusted
    case ASSEMBLY => adjusted
  }

  /** The scale `updateVisuals` assigns: shrinks from full size to half when
      disintegrating, grows from half to full when assembling. */
  function ScaleAt(effect: ParticleEffect, adjusted: real): (s: real)
    requires 0.0 <= adjusted <= 1.0
    ensures 0.5 <= s <= 1.0
    ensures effect == DISINTEGRATION ==> (s == 1.0 <==> adjusted == 0.0) && (s == 0.5 <==> adjusted == 1.0)
    ensures effect == ASSEMBLY ==> (s == 0.5 <==> adjusted == 0.0) && (s == 1.0 <==> adjusted == 1.0)
  {
    match effect
    case DISINTEGRATION => 1.0 - adjusted * 0.5
    case ASSEMBLY => 0.5 + adjusted * 0.5
  }

  /** The change of rotation (degrees) one `updateVisuals` call makes: up to half
      a turn, clockwise for disintegration and counter-clockwise for assembly. */
  function SpinAt(effect: ParticleEffect, adjusted: real): (d: real)
    requires 0.0 <= adjusted <= 1.0
    ensures effect == DISINTEGRATION ==> 0.0 <= d <= 180.0
    ensures effect == ASSEMBLY ==> -180.0 <= d <= 0.0
    ensures d == 0.0 <==> adjusted == 0.0
  {
    match effect
    case DISINTEGRATION => adjusted * 180.0
    case ASSEMBLY => -(adjusted * 180.0)
  }

  /** The look moves one way only as the animation advances: a disintegrating
      particle never becomes more opaque or larger, an assembling one never less. */
  lemma {:induction false} LookIsMonotone(effect: ParticleEffect, delay: real, early: real, late: real)
    requires early <= late
    ensures var a0, a1 := AdjustedProgress(early, delay), AdjustedProgress(late, delay);
      a0 <= a1 &&
      (effect == DISINTEGRATION ==> AlphaAt(effect, a1) <= AlphaAt(effect, a0) && ScaleAt(effect, a1) <= ScaleAt(effect, a0)) &&
      (effect == ASSEMBLY ==> AlphaAt(effect, a0) <= AlphaAt(effect, a1) && ScaleAt(effect, a0) <= ScaleAt(effect, a1))
  {
    var a0, a1 := AdjustedProgress(early, delay), AdjustedProgress(late, delay);
    if late - delay >= 1.0 {
      assert a1 == 1.0;
    } else if early <= delay {
      assert a0 == 0.0;
    } else {
      assert a0 == early - delay && a1 == late - delay;
    }
  }

  /** When `updateVisuals` switches a particle off: a disintegrating particle once
      the animation is a full unit past its delay, an assembling one as long as the
      animation has not yet reached its delay. */
  lemma FadedExactly(effect: ParticleEffect, progress: real, delay: real)
    ensures AlphaAt(effect, AdjustedProgress(progress, delay)) <= 0.0 <==>
      (if effect == DISINTEGRATION then progress - delay >= 1.0 else progress <= delay)
  {
  }

  /** `class Particle`: every property is a mutable field. */
  class Particle {
    var originalX: real
    var originalY: real
    var position: Vector2
    var velocity: Vector2
    var acceleration: Vector2
    var color: Rgba
    var alpha: real
    var scale: real
    var rotation: real
    var shape: ParticleShape
    var size: real
    var lifetime: real
    var delay: real
    var mass: real
    var friction: real
    var isActive: bool

    /** The primary constructor with the arguments the emission strategies pass;
        every other property takes its declared default. */
    constructor(originalX: real, originalY: real, position: Vector2, velocity: Vector2,
                color: Rgba, shape: ParticleShape, size: real, delay: real, friction: real)
      ensures this.originalX == originalX && this.originalY == originalY
      ensures this.position == position && this.velocity == velocity && acceleration == ZERO
      ensures this.color == color && alpha == 1.0 && scale == 1.0 && rotation == 0.0
      ensures this.shape == shape && this.size == size
      ensures lifetime == 1.0 && this.delay == delay && mass == 1.0 && this.friction == friction
      ensures isActive
    {
      this.originalX := originalX;
      this.originalY := originalY;
      this.position := position;
      this.velocity := velocity;
      this.acceleration := ZERO;
      this.color := color;
      this.alpha := 1.0;
      this.scale := 1.0;
      this.rotation := 0.0;
      this.shape := shape;
      this.size := size;
      this.lifetime := 1.0;
      this.delay := delay;
      this.mass := 1.0;
      this.friction := friction;
      this.isActive := true;
    }

    /** `updatePhysics`: semi-implicit Euler with friction; the accumulated
        acceleration is consumed. */
    method UpdatePhysics(deltaTime: real)
      modifies this`velocity, this`position, this`acceleration
      ensures velocity == Times(Plus(old(velocity), Times(old(acceleration), deltaTime)), friction)
      ensures position == Plus(old(position), Times(velocity, deltaTime))
      ensures acceleration == ZERO
    {
      velocity := Plus(velocity, Times(acceleration, deltaTime));
      velocity := Times(velocity, friction);
      position := Plus(position, Times(velocity, deltaTime));
      acceleration := ZERO;
    }

    /** `applyForce`: a = F / m, with the mass kept away from zero. */
    method ApplyForce(force: Vector2)
      modifies this`acceleration
      ensures acceleration == Plus(old(acceleration), Div(force, Max(mass, MIN_MASS)))
    {
      acceleration := Plus(acceleration, Div(force, Max(mass, MIN_MASS)));
    }

    /** `updateVisuals`: alpha, scale and rotation follow the particle's own
        progress; a particle whose alpha reaches zero is switched off for good. */
    method UpdateVisuals(progress: real, effect: ParticleEffect)
      modifies this`alpha, this`scale, this`rotation, this`isActive
      ensures alpha == AlphaAt(effect, AdjustedProgress(progress, delay))
      ensures scale == ScaleAt(effect, AdjustedProgress(progress, delay))
      ensures rotation == old(rotation) + SpinAt(effect, AdjustedProgress(progress, delay))
      ensures isActive <==> old(isActive) && 0.0 < alpha
      ensures 0.0 <= alpha <= 1.0 && 0.5 <= scale <= 1.0
    {
      var adjustedProgress := AdjustedProgress(progress, delay);
      match effect {
        case DISINTEGRATION =>
          alpha := 1.0 - adjustedProgress;
          scale := 1.0 - adjustedProgress * 0.5;
          rotation := rotation + adjustedProgress * 180.0;
        case ASSEMBLY =>
          alpha := adjustedProgress;
          scale := 0.5 + adjustedProgress * 0.5;
          rotation := rotation - adjustedProgress * 180.0;
      }
      if alpha <= 0.0 {
        isActive := false;
      }
    }
  }
}
