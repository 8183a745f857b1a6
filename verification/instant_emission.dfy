/** `InstantEmissionStrategy` (emission/InstantEmissionStrategy.kt): one particle
    per visible sampled pixel, all of them live from the first frame. */
module InstantEmission {
  import opened Numeric
  import opened Oracles
  import opened Vectors
  import opened Config
  import opened Pixels
  import opened Environment
  import opened Sampling
  import opened Particles

  /** Where particle number k, emitted for pixel pt, starts: on its pixel when
      disintegrating, displaced by up to 100 pixels on each axis when assembling. */
  function StartPosition(effect: ParticleEffect, pt: Point, k: int, env: Env): Vector2
  {
    match effect
    case DISINTEGRATION => Vector2(pt.x as real, pt.y as real)
    case ASSEMBLY =>
      Vector2(pt.x as real + env.rand(k, CH_INSTANT_OFFSET_X) * 200.0 - 100.0,
              pt.y as real + env.rand(k, CH_INSTANT_OFFSET_Y) * 200.0 - 100.0)
  }

  /** An assembling particle starts in the 200 x 200 box centred on its pixel
      (right and lower edges excluded); a disintegrating one on the pixel itself. */
  lemma StartNearPixel(effect: ParticleEffect, pt: Point, k: int, env: Env)
    requires env.Valid()
    ensures var p := StartPosition(effect, pt, k, env);
      -100.0 <= p.x - pt.x as real < 100.0 && -100.0 <= p.y - pt.y as real < 100.0
    ensures effect == DISINTEGRATION ==> StartPosition(effect, pt, k, env) == Vector2(pt.x as real, pt.y as real)
  {
    assert 0.0 <= env.rand(k, CH_INSTANT_OFFSET_X) < 1.0 && 0.0 <= env.rand(k, CH_INSTANT_OFFSET_Y) < 1.0;
  }

  /** Disintegrating particles get a random velocity, assembling ones none. */
  function StartVelocity(effect: ParticleEffect, k: int, particleConfig: ParticleConfig, env: Env): Vector2
  {
    match effect
    case DISINTEGRATION => env.randomVector(k, particleConfig.velocityMagnitude)
    case ASSEMBLY => ZERO
  }

  /** Particle p is the k-th one emitted, for sampled pixel pt. */
  ghost predicate Emitted(p: Particle, k: int, pt: Point, bitmap: Bitmap, particleConfig: ParticleConfig,
                          effect: ParticleEffect, env: Env)
    reads p
  {
    && p.originalX == pt.x as real && p.originalY == pt.y as real
    && p.position == StartPosition(effect, pt, k, env)
    && p.velocity == StartVelocity(effect, k, particleConfig, env)
    && p.acceleration == ZERO
    && p.color == bitmap.pixel(pt.x, pt.y)
    && p.alpha == 1.0 && p.scale == 1.0 && p.rotation == 0.0
    && p.shape == particleConfig.shape
    && p.size == particleConfig.size * (0.5 + env.rand(k, CH_INSTANT_SIZE))
    && p.lifetime == 1.0 && p.delay == 0.0 && p.mass == 1.0
    && p.friction == particleConfig.friction
    && p.isActive
  }

  /** `particles` are the ones emitted, in order, for the pixels `kept`. */
  ghost predicate EmittedAll(particles: seq<Particle>, kept: seq<Point>, bitmap: Bitmap,
                             particleConfig: ParticleConfig, effect: ParticleEffect, env: Env)
    reads set k | 0 <= k < |particles| :: particles[k]
  {
    && |particles| == |kept|
    && forall k :: 0 <= k < |particles| ==> Emitted(particles[k], k, kept[k], bitmap, particleConfig, effect, env)
  }

  /** No particle object appears twice. */
  predicate Distinct(particles: seq<Particle>)
  {
    forall i, j :: 0 <= i < j < |particles| ==> particles[i] != particles[j]
  }

  /** `generateParticles`: walks the sampling grid column by column and emits a
      particle for every visible pixel, in visiting order. */
  method GenerateParticles(bitmap: Bitmap, particleConfig: ParticleConfig, emissionConfig: EmissionConfig,
                           effect: ParticleEffect, env: Env)
    returns (particles: seq<Particle>)
    requires bitmap.Valid()
    ensures EmittedAll(particles, Samples(bitmap, StepSize(emissionConfig.particleCount, bitmap.width, bitmap.height, env.sqrt)),
                       bitmap, particleConfig, effect, env)
    ensures forall k :: 0 <= k < |particles| ==> fresh(particles[k])
    ensures Distinct(particles)
  {
    particles := [];
    var width := bitmap.width;
    var height := bitmap.height;
    var stepSize := StepSize(emissionConfig.particleCount, width, height, env.sqrt);
    ghost var grid := Grid(0, width, height, stepSize);
    ghost var visited: seq<Point> := [];

    var x := 0;
    while x < width
      invariant visited + Grid(x, width, height, stepSize) == grid
      invariant EmittedAll(particles, Kept(bitmap, visited), bitmap, particleConfig, effect, env)
      invariant forall k :: 0 <= k < |particles| ==> fresh(particles[k])
      invariant Distinct(particles)
      decreases width - x
    {
      ghost var column := Column(x, 0, height, stepSize);
      particles := EmitColumn(bitmap, x, stepSize, particleConfig, effect, env, visited, particles);
      GridStep(x, width, height, stepSize, visited);
      visited := visited + column;
      x := x + stepSize;
    }
    assert visited == grid;
  }

  /** The inner loop `for (y in 0 until height step stepSize)` of column x. */
  method EmitColumn(bitmap: Bitmap, x: int, stepSize: int, particleConfig: ParticleConfig,
                    effect: ParticleEffect, env: Env, ghost visited: seq<Point>, particles: seq<Particle>)
    returns (out: seq<Particle>)
    requires stepSize >= 1
    requires EmittedAll(particles, Kept(bitmap, visited), bitmap, particleConfig, effect, env)
    requires Distinct(particles)
    ensures EmittedAll(out, Kept(bitmap, visited + Column(x, 0, bitmap.height, stepSize)), bitmap, particleConfig, effect, env)
    ensures |particles| <= |out| && out[..|particles|] == particles
    ensures forall k :: |particles| <= k < |out| ==> fresh(out[k])
    ensures Distinct(out)
  {
    out := particles;
    ghost var done := visited;
    var y := 0;
    while y < bitmap.height
      invariant done + Column(x, y, bitmap.height, stepSize) == visited + Column(x, 0, bitmap.height, stepSize)
      invariant EmittedAll(out, Kept(bitmap, done), bitmap, particleConfig, effect, env)
      invariant |particles| <= |out| && out[..|particles|] == particles
      invariant forall k :: |particles| <= k < |out| ==> fresh(out[k])
      invariant Distinct(out)
      decreases bitmap.height - y
    {
      var pixel := bitmap.pixel(x, y);
      ghost var kept := Kept(bitmap, done);
      ghost var next := done + [Point(x, y)];
      assert next[..|next| - 1] == done;
      if Visible(pixel) {
        var k := |out|;
        var initialPosition := StartPosition(effect, Point(x, y), k, env);
        var initialVelocity := StartVelocity(effect, k, particleConfig, env);
        var particle := new Particle(x as real, y as real, initialPosition, initialVelocity, pixel,
                                     particleConfig.shape, particleConfig.size * (0.5 + env.rand(k, CH_INSTANT_SIZE)),
                                     0.0, particleConfig.friction);
        EmittedAppend(out, kept, particle, Point(x, y), bitmap, particleConfig, effect, env);
        out := out + [particle];
        assert Kept(bitmap, next) == kept + [Point(x, y)];
      } else {
        assert Kept(bitmap, next) == kept;
      }
      done := next;
      y := y + stepSize;
    }
    assert done == visited + Column(x, 0, bitmap.height, stepSize);
  }

  lemma EmittedAppend(particles: seq<Particle>, kept: seq<Point>, p: Particle, pt: Point, bitmap: Bitmap,
                      particleConfig: ParticleConfig, effect: ParticleEffect, env: Env)
    requires EmittedAll(particles, kept, bitmap, particleConfig, effect, env)
    requires Emitted(p, |particles|, pt, bitmap, particleConfig, effect, env)
    ensures EmittedAll(particles + [p], kept + [pt], bitmap, particleConfig, effect, env)
  {
  }
}
