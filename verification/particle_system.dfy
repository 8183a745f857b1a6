/** `ParticleSystem` (particle/ParticleSystem.kt): turns a captured picture into
    particles in the store, prepares them for the chosen effect, schedules their
    release, and drives one frame at a time: the clock, the release of pending
    particles, and the physics behaviour of the effect on every active one. */
module System {
  import opened Numeric
  import opened Oracles
  import opened Vectors
  import opened Config
  import opened Pixels
  import opened Environment
  import opened Sampling
  import opened Storage
  import opened EmissionControl
  import opened Animation
  import AssemblyBehavior
  import DisintegrationBehavior

  /** Line 201: the factor in [0.7, 1.3) the base size of the `index`-th particle
      is scaled by. */
  function SizeFactor(index: int, env: Env): real
  {
    0.7 + env.rand(index, CH_SYSTEM_SIZE) * 0.6
  }

  /** Lines 192-202: the slot `createParticle` fills for the `index`-th
      particle, made from sampled pixel `p`. */
  function Seeded(s: Slot, p: Point, index: int, bitmap: Bitmap, config: ParticleConfig, env: Env): Slot
  {
    Created(s, p.x as real, p.y as real, bitmap.pixel(p.x, p.y), ShapeCode(config.shape),
            config.size * SizeFactor(index, env))
  }

  /** A seeded particle sits at rest on its pixel with the pixel's colour, the
      shape code of the configured shape, and a size within [0.7, 1.3) of the
      configured one; its flags and delay are untouched. */
  lemma SeededShape(s: Slot, p: Point, index: int, bitmap: Bitmap, config: ParticleConfig, env: Env)
    requires env.Valid() && 0.0 <= config.size
    ensures var r := Seeded(s, p, index, bitmap, config, env);
      && r.originalX == r.positionX == p.x as real && r.originalY == r.positionY == p.y as real
      && r.velocityX == 0.0 && r.velocityY == 0.0
      && r.color == bitmap.pixel(p.x, p.y) && r.shape == ShapeCode(config.shape)
      && 0.7 * config.size <= r.size <= 1.3 * config.size
      && r.active == s.active && r.pending == s.pending && r.delay == s.delay
  {
    var u := env.rand(index, CH_SYSTEM_SIZE);
    assert 0.0 <= u < 1.0;
    var f := SizeFactor(index, env);
    SizeWithin(config.size, f);
    var r := Seeded(s, p, index, bitmap, config, env);
    assert r.size == config.size * f;
  }

  /** A size scaled by a factor in [0.7, 1.3] stays within that share of it. */
  lemma SizeWithin(size: real, f: real)
    requires 0.7 <= f <= 1.3 && 0.0 <= size
    ensures 0.7 * size <= size * f <= 1.3 * size
  {
    ScaleNonNegative(0.7, f, size);
    ScaleNonNegative(f, 1.3, size);
  }

  /** Lines 174-176: the sampling step, from the smaller of the store's capacity
      and the requested particle count. */
  function SamplingStep(capacity: nat, config: EmissionConfig, width: int, height: int, sqrt: real -> real): (step: int)
    requires width > 0 && height > 0
    ensures step >= 1
  {
    StepSize(if capacity < config.particleCount then capacity else config.particleCount, width, height, sqrt)
  }

  /** Lines 110-123: a disintegrating particle after its preparation: varied
      look, a launch velocity, and full opacity and scale unless those are
      randomised. */
  function Dispersed(s: Slot, index: int, emission: EmissionConfig, particle: ParticleConfig, env: Env): Slot
    requires env.Valid()
  {
    var v := Varied(emission, s, index, env);
    var launch := LaunchVelocity(particle.velocityMagnitude, index, env);
    v.(velocityX := launch.x, velocityY := launch.y,
       alpha := if emission.randomAlphas then v.alpha else 1.0,
       scale := if emission.randomSizes then v.scale else 1.0)
  }

  /** Lines 144-151: how far, and in which direction, an assembling particle is
      moved away from its pixel. */
  function Scatter(index: int, env: Env): Vector2
  {
    var angle := env.rand(index, CH_SYSTEM_ANGLE) * 2.0 * PI;
    var distance := 150.0 + env.rand(index, CH_SYSTEM_DISTANCE) * 150.0;
    Vector2(env.cos(angle) * distance, env.sin(angle) * distance)
  }

  /** Lines 135-158: an assembling particle after its preparation: varied look,
      faint and small, and moved away from its pixel. */
  function Gathered(s: Slot, index: int, emission: EmissionConfig, env: Env): Slot
    requires env.Valid()
  {
    var v := Varied(emission, s, index, env);
    var offset := Scatter(index, env);
    v.(alpha := 0.3 + env.rand(index, CH_SYSTEM_ALPHA) * 0.2,
       scale := 0.4 + env.rand(index, CH_SYSTEM_SCALE) * 0.2,
       positionX := v.positionX + offset.x, positionY := v.positionY + offset.y)
  }

  /** An assembling particle starts with alpha in [0.3, 0.5) and scale in
      [0.4, 0.6), between 150 and 300 pixels from where it was, with its pixel,
      velocity, shape, flags and delay unchanged. */
  lemma GatheredShape(s: Slot, index: int, emission: EmissionConfig, env: Env)
    requires env.Valid()
    ensures var r := Gathered(s, index, emission, env);
      && 0.3 <= r.alpha < 0.5 && 0.4 <= r.scale < 0.6
      && 150.0 * 150.0 <= LengthSquared(Vector2(r.positionX - s.positionX, r.positionY - s.positionY)) < 300.0 * 300.0
      && r.originalX == s.originalX && r.originalY == s.originalY
      && r.velocityX == s.velocityX && r.velocityY == s.velocityY
      && r.shape == s.shape && r.active == s.active && r.pending == s.pending && r.delay == s.delay
  {
    var angle := env.rand(index, CH_SYSTEM_ANGLE) * 2.0 * PI;
    var m := 150.0 + env.rand(index, CH_SYSTEM_DISTANCE) * 150.0;
    var c, sn := env.cos(angle), env.sin(angle);
    assert sn * sn + c * c == 1.0;
    RotatedMagnitude(c, sn, m);
    var r := Gathered(s, index, emission, env);
    assert Vector2(r.positionX - s.positionX, r.positionY - s.positionY) == Vector2(c * m, sn * m);
    MultiplyBounds(150.0, m);
    SquareStrictlyMonotone(m, 300.0);
  }

  /** The preparation `generateParticles` gives each particle for its effect. */
  function Prepared(s: Slot, index: int, effect: ParticleEffect, emission: EmissionConfig, particle: ParticleConfig,
                    env: Env): Slot
    requires env.Valid()
  {
    match effect
    case DISINTEGRATION => Dispersed(s, index, emission, particle, env)
    case ASSEMBLY => Gathered(s, index, emission, env)
  }

  /** Preparation keeps the particle's pixel, shape, flags and delay, whatever
      the effect. */
  lemma PreparedKeeps(s: Slot, index: int, effect: ParticleEffect, emission: EmissionConfig, particle: ParticleConfig,
                      env: Env)
    requires env.Valid()
    ensures var r := Prepared(s, index, effect, emission, particle, env);
      && r.originalX == s.originalX && r.originalY == s.originalY && r.shape == s.shape
      && r.active == s.active && r.pending == s.pending && r.delay == s.delay
  {
  }

  /** Lines 84-90 through `calculateDelays`: the delay and flags particle `i`
      of the `|xs|` in use is given. */
  function Emitted(s: Slot, i: int, config: EmissionConfig, effect: ParticleEffect, xs: seq<real>, ys: seq<real>,
                   width: int, height: int, env: Env): Slot
    requires |xs| == |ys| && 0 <= i < |xs| && width > 0 && height > 0 && env.Valid()
  {
    if config.emissionType == INSTANT then Scheduled(s, 0.0, true)
    else
      var values := NormalizedPatternValues(xs, ys, config.pattern, width, height, env.sqrt);
      Scheduled(s, TargetDelay(config, effect, values[i], i, env), ForceActive(i, |xs|))
  }

  /** The whole store after `reset`: every flag cleared. */
  function ClearedAll(slots: seq<Slot>): (r: seq<Slot>)
    ensures |r| == |slots|
  {
    seq(|slots|, i requires 0 <= i < |slots| => slots[i].(active := false, pending := false))
  }

  /** The whole store after lines 181-207: the first `n` slots seeded from
      the first `n` samples, the others untouched. */
  function SeededAll(slots: seq<Slot>, samples: seq<Point>, n: nat, bitmap: Bitmap, config: ParticleConfig,
                     env: Env): (r: seq<Slot>)
    requires n <= |slots| && n <= |samples|
    ensures |r| == |slots|
  {
    seq(|slots|, i requires 0 <= i < |slots| =>
      if i < n then Seeded(slots[i], samples[i], i, bitmap, config, env) else slots[i])
  }

  /** The whole store after lines 74-80: the first `n` slots prepared for
      `effect`, the others untouched. */
  function PreparedAll(slots: seq<Slot>, n: nat, effect: ParticleEffect, emission: EmissionConfig,
                       particle: ParticleConfig, env: Env): (r: seq<Slot>)
    requires n <= |slots| && env.Valid()
    ensures |r| == |slots|
  {
    seq(|slots|, i requires 0 <= i < |slots| =>
      if i < n then Prepared(slots[i], i, effect, emission, particle, env) else slots[i])
  }

  /** The original x coordinates of the first `n` slots. */
  function OriginalXs(slots: seq<Slot>, n: nat): (r: seq<real>)
    requires n <= |slots|
    ensures |r| == n
  {
    seq(n, i requires 0 <= i < n => slots[i].originalX)
  }

  /** The original y coordinates of the first `n` slots. */
  function OriginalYs(slots: seq<Slot>, n: nat): (r: seq<real>)
    requires n <= |slots|
    ensures |r| == n
  {
    seq(n, i requires 0 <= i < n => slots[i].originalY)
  }

  /** The whole store after lines 84-90: the first `n` slots scheduled by the
      pattern over their own original positions, the others untouched. */
  function EmittedAll(slots: seq<Slot>, n: nat, config: EmissionConfig, effect: ParticleEffect, width: int,
                      height: int, env: Env): (r: seq<Slot>)
    requires n <= |slots| && width > 0 && height > 0 && env.Valid()
    ensures |r| == |slots|
  {
    seq(|slots|, i requires 0 <= i < |slots| =>
      if i < n then Emitted(slots[i], i, config, effect, OriginalXs(slots, n), OriginalYs(slots, n), width, height, env)
      else slots[i])
  }

  /** Lines 270-286 for one slot: a pending slot in use is released once the
      progress reaches its delay (at once under instant emission). */
  function Released(s: Slot, inUse: bool, progress: real, config: EmissionConfig): Slot
  {
    if inUse && s.pending && Releases(config, s.delay, progress) then s.(active := true, pending := false) else s
  }

  /** Release only turns pending slots in use into active ones, exactly those
      whose delay has come, and once released a slot stays released at any
      later progress. */
  lemma ReleasedShape(s: Slot, inUse: bool, progress: real, later: real, config: EmissionConfig)
    ensures var r := Released(s, inUse, progress, config);
      && (r.active <==> s.active || (inUse && s.pending && Releases(config, s.delay, progress)))
      && (r.pending <==> s.pending && !(inUse && Releases(config, s.delay, progress)))
      && r.(active := s.active, pending := s.pending) == s
    ensures progress <= later && !s.active && Released(s, inUse, progress, config).active ==>
      Released(s, inUse, later, config).active
  {
  }

  /** What a behaviour's update keeps of a slot: its pixel, colour, size, shape
      and delay; and it never sets a flag. */
  predicate Evolved(before: Slot, after: Slot)
  {
    && after.originalX == before.originalX && after.originalY == before.originalY
    && after.color == before.color && after.size == before.size && after.shape == before.shape
    && after.delay == before.delay
    && (after.active ==> before.active) && (after.pending ==> before.pending)
  }

  /** What one frame of the effect's behaviour does to an active particle:
      `Evolved`; a disintegrating one is retired once faded out, and an
      assembling one stays active. */
  predicate Advanced(before: Slot, after: Slot, effect: ParticleEffect)
  {
    && Evolved(before, after)
    && (effect == DISINTEGRATION ==> Retired(after))
    && (effect == ASSEMBLY ==> after.active && !after.pending)
  }

  /** How far one particle's update moves the wind clock (line 128 of the
      disintegration behaviour): the clamped frame time when the wind blows. */
  function WindStep(effect: ParticleEffect, windEnabled: bool, deltaTime: real): real
  {
    if effect == DISINTEGRATION && windEnabled then Clamp(deltaTime, 0.001, 0.1) else 0.0
  }

  /** `step` added `n` times over. */
  function Repeated(n: nat, step: real): real
  {
    if n == 0 then 0.0 else Repeated(n - 1, step) + step
  }

  lemma {:induction false} RepeatedIsProduct(n: nat, step: real)
    ensures Repeated(n, step) == n as real * step
  {
    if n > 0 {
      RepeatedIsProduct(n - 1, step);
    }
  }

  /** A disintegrating particle faded out to alpha 0.01 is no longer drawn. */
  predicate Retired(s: Slot)
  {
    s.alpha <= 0.01 ==> !s.active && !s.pending
  }

  /** The frame time in seconds handed to the behaviours: the time since the
      clock's last update, capped at 0.05 by `getDeltaTime` and clamped into
      [0.001, 0.1] (lines 231-232), read before the clock is updated. */
  function FrameTime(c: Clock, now: int): (dt: real)
    ensures 0.001 <= dt <= 0.05
  {
    Clamp(Min(0.05, (now - c.lastUpdateTime) as real / 1000.0), 0.001, 0.1)
  }

  /** The corrected frame time follows the clock: for a gap of 1 to 50
      milliseconds since the last update it is that gap in seconds. */
  lemma FrameTimeTracksGap(c: Clock, now: int)
    requires 1 <= now - c.lastUpdateTime <= 50
    ensures FrameTime(c, now) * 1000.0 == (now - c.lastUpdateTime) as real
  {
    var gap := (now - c.lastUpdateTime) as real;
    assert gap / 1000.0 * 1000.0 == gap;
  }

  /** Lines 225-232 as written: `getDeltaTime` is read after `update`, which
      has just set the last update time to `now`. */
  function FrameTimeAsWritten(c: Clock, config: AnimationConfig, now: int): real
  {
    FrameTime(Updated(c, config, now).clock, now)
  }

  /** As written, the frame time of every frame the running, unpaused clock
      lets through is the 0.001 floor, however long the frame took. */
  lemma FrameTimeAsWrittenIsFloor(c: Clock, config: AnimationConfig, now: int)
    requires c.isRunning && !c.isPaused
    ensures FrameTimeAsWritten(c, config, now) == 0.001
    ensures now - c.lastUpdateTime == 30 ==> FrameTime(c, now) == 0.03
  {
    if now - c.lastUpdateTime == 30 {
      FrameTimeTracksGap(c, now);
    }
  }

  /** One more entry of a strictly ascending index list: it is listed, it was
      not among the entries before it, and it is the one entry added. */
  lemma PrefixStep(r: seq<int>, k: nat)
    requires k < |r|
    requires forall a, b :: 0 <= a < b < |r| ==> r[a] < r[b]
    ensures r[k] in r && r[k] !in r[..k]
    ensures forall j :: j in r[..k + 1] <==> j in r[..k] || j == r[k]
  {
    assert r[..k + 1] == r[..k] + [r[k]];
  }

  /** One column of the sampling loops, from the pixels visited before it
      (`visited`) to those visited after it (`done`), stopping at row `yEnd`:
      what remains of the grid is the rest of the column and the later columns,
      and when the column ran to its end, `done` holds all of it. */
  lemma ColumnDone(visited: seq<Point>, done: seq<Point>, x: int, yEnd: int, width: int, height: int, step: int)
    requires step >= 1 && x < width
    requires done + Column(x, yEnd, height, step) == visited + Column(x, 0, height, step)
    ensures done + (Column(x, yEnd, height, step) + Grid(x + step, width, height, step))
            == visited + Grid(x, width, height, step)
    ensures yEnd >= height ==> done + Grid(x + step, width, height, step) == visited + Grid(x, width, height, step)
  {
    GridStep(x, width, height, step, visited);
    assert done + (Column(x, yEnd, height, step) + Grid(x + step, width, height, step))
           == (done + Column(x, yEnd, height, step)) + Grid(x + step, width, height, step);
    if yEnd >= height {
      assert done + Column(x, yEnd, height, step) == done;
    }
  }

  class ParticleSystem {
    const particleConfig: ParticleConfig
    const emissionConfig: EmissionConfig
    const animationConfig: AnimationConfig
    const storage: ParticleStorage
    const disintegrationPhysics: DisintegrationBehavior.DisintegrationPhysics
    const assemblyPhysics: AssemblyBehavior.AssemblyPhysics
    const emissionController: EmissionController
    const animationController: AnimationController
    var currentEffect: Option<ParticleEffect>
    var contentWidth: int
    var contentHeight: int
    var activeParticleCount: int

    /** The wiring the constructor sets up and every operation keeps: one store
        sized by the emission config, both behaviours consulting the one
        animation controller, and a coherent clock. */
    ghost predicate Valid()
      reads storage, storage.active, storage.pending, animationController, disintegrationPhysics`animationController,
            assemblyPhysics`animationController
    {
      && storage.Valid()
      && storage.capacity as int == emissionConfig.particleCount
      && emissionController.config == emissionConfig
      && animationController.config == animationConfig
      && animationController.Valid()
      && disintegrationPhysics.animationController == animationController
      && assemblyPhysics.animationController == animationController
      && disintegrationPhysics.particle == particleConfig
      && disintegrationPhysics.config.explosionDuration > 0.0
    }

    /** Every object an operation of the system may change. */
    ghost function Footprint(): set<object>
    {
      {this, storage, animationController, disintegrationPhysics, assemblyPhysics,
       storage.positionX, storage.positionY, storage.originalX, storage.originalY, storage.velocityX,
       storage.velocityY, storage.colors, storage.sizes, storage.alphas, storage.scales, storage.rotations,
       storage.shapes, storage.active, storage.pending, storage.delays}
    }

    /** Lines 24-51, with the behaviours' configurations passed in. */
    constructor(particleConfig: ParticleConfig, emissionConfig: EmissionConfig, animationConfig: AnimationConfig,
                disintegration: DisintegrationConfig, assembly: AssemblyConfig)
      requires emissionConfig.particleCount >= 0 && disintegration.explosionDuration > 0.0
      ensures Valid()
      ensures this.particleConfig == particleConfig && this.emissionConfig == emissionConfig
      ensures this.animationConfig == animationConfig
      ensures disintegrationPhysics.config == disintegration && assemblyPhysics.config == assembly
      ensures storage.particleCount == 0 && currentEffect == None
      ensures contentWidth == 0 && contentHeight == 0 && activeParticleCount == 0
      ensures fresh(storage) && fresh(disintegrationPhysics) && fresh(assemblyPhysics) && fresh(animationController)
      ensures fresh(storage.positionX) && fresh(storage.positionY) && fresh(storage.originalX)
      ensures fresh(storage.originalY) && fresh(storage.velocityX) && fresh(storage.velocityY)
      ensures fresh(storage.colors) && fresh(storage.sizes) && fresh(storage.alphas) && fresh(storage.scales)
      ensures fresh(storage.rotations) && fresh(storage.shapes) && fresh(storage.active) && fresh(storage.pending)
      ensures fresh(storage.delays)
    {
      this.particleConfig := particleConfig;
      this.emissionConfig := emissionConfig;
      this.animationConfig := animationConfig;
      storage := new ParticleStorage(emissionConfig.particleCount as nat);
      disintegrationPhysics := new DisintegrationBehavior.DisintegrationPhysics(particleConfig, disintegration);
      assemblyPhysics := new AssemblyBehavior.AssemblyPhysics(assembly);
      emissionController := new EmissionController(emissionConfig);
      animationController := new AnimationController(animationConfig);
      currentEffect := None;
      contentWidth, contentHeight, activeParticleCount := 0, 0, 0;
      new;
      disintegrationPhysics.SetAnimationController(animationController);
      assemblyPhysics.SetAnimationController(animationController);
    }

    /** The store holds a seeded particle for each of the pixels `kept`, in
        order, over the slots `base` it started from; the slots beyond are as
        they were. */
    ghost predicate SeededFrom(base: seq<Slot>, kept: seq<Point>, bitmap: Bitmap, env: Env)
      reads storage, storage.Columns()
      requires storage.Sized()
    {
      && |base| == storage.capacity && storage.particleCount == |kept|
      && forall i :: 0 <= i < storage.capacity ==>
           storage.At(i) == if i < storage.particleCount then Seeded(base[i], kept[i], i, bitmap, particleConfig, env)
                            else base[i]
    }

    /** Lines 182-204, the inner loop for column `x`: a particle for every
        visible pixel until the store is full. `visited` are the pixels visited
        before, `done` those visited after, and `yEnd` the row the loop stopped at. */
    method SeedColumn(bitmap: Bitmap, x: int, stepSize: int, env: Env, ghost visited: seq<Point>, ghost base: seq<Slot>)
      returns (ghost done: seq<Point>, ghost yEnd: int)
      requires storage.Valid() && stepSize >= 1
      requires SeededFrom(base, Kept(bitmap, visited), bitmap, env)
      modifies storage, storage.positionX, storage.positionY, storage.originalX, storage.originalY,
               storage.velocityX, storage.velocityY, storage.colors, storage.sizes, storage.shapes,
               storage.alphas, storage.scales, storage.rotations
      ensures storage.Valid()
      ensures done + Column(x, yEnd, bitmap.height, stepSize) == visited + Column(x, 0, bitmap.height, stepSize)
      ensures yEnd < bitmap.height ==> storage.particleCount >= storage.capacity
      ensures SeededFrom(base, Kept(bitmap, done), bitmap, env)
    {
      done := visited;
      var y := 0;
      while y < bitmap.height
        invariant storage.Valid()
        invariant done + Column(x, y, bitmap.height, stepSize) == visited + Column(x, 0, bitmap.height, stepSize)
        invariant SeededFrom(base, Kept(bitmap, done), bitmap, env)
        decreases bitmap.height - y
      {
        if storage.particleCount >= storage.capacity {
          break;
        }
        var pixel := bitmap.pixel(x, y);
        ghost var kept := Kept(bitmap, done);
        ghost var next := done + [Point(x, y)];
        assert next[..|next| - 1] == done;
        ColumnStep(x, y, bitmap.height, stepSize, done);
        if Visible(pixel) {
          var index := storage.CreateParticle(x as real, y as real, pixel, ShapeCode(particleConfig.shape),
                                              particleConfig.size * SizeFactor(storage.particleCount, env));
          assert Kept(bitmap, next) == kept + [Point(x, y)];
        } else {
          assert Kept(bitmap, next) == kept;
        }
        done := next;
        y := y + stepSize;
      }
      yEnd := y;
    }

    /** Lines 181-207: the nested sampling loops with step `stepSize`, seen
        through the pixels `visited` so far and the `rest` still to visit. */
    method SeedGrid(bitmap: Bitmap, stepSize: int, env: Env, ghost base: seq<Slot>)
      returns (ghost visited: seq<Point>, ghost rest: seq<Point>)
      requires storage.Valid() && bitmap.Valid() && stepSize >= 1
      requires SeededFrom(base, [], bitmap, env)
      modifies storage, storage.positionX, storage.positionY, storage.originalX, storage.originalY,
               storage.velocityX, storage.velocityY, storage.colors, storage.sizes, storage.shapes,
               storage.alphas, storage.scales, storage.rotations
      ensures storage.Valid()
      ensures visited + rest == Grid(0, bitmap.width, bitmap.height, stepSize)
      ensures rest == [] || storage.particleCount >= storage.capacity
      ensures SeededFrom(base, Kept(bitmap, visited), bitmap, env)
    {
      var width, height := bitmap.width, bitmap.height;
      ghost var grid := Grid(0, width, height, stepSize);
      visited, rest := [], grid;
      var x := 0;
      while x < width
        invariant storage.Valid()
        invariant visited + rest == grid
        invariant rest == Grid(x, width, height, stepSize)
        invariant SeededFrom(base, Kept(bitmap, visited), bitmap, env)
        decreases width - x
      {
        ghost var done: seq<Point>, yEnd: int;
        done, yEnd := SeedColumn(bitmap, x, stepSize, env, visited, base);
        ColumnDone(visited, done, x, yEnd, width, height, stepSize);
        if storage.particleCount >= storage.capacity {
          visited, rest := done, Column(x, yEnd, height, stepSize) + Grid(x + stepSize, width, height, stepSize);
          return;
        }
        visited, rest := done, Grid(x + stepSize, width, height, stepSize);
        x := x + stepSize;
      }
    }

    /** `createParticlesFromBitmap`: into an empty store, one particle per
        visible sampled pixel, in sampling order, until the store is full. */
    method CreateParticlesFromBitmap(bitmap: Bitmap, env: Env)
      requires storage.Valid() && storage.particleCount == 0 && bitmap.Valid()
      modifies storage, storage.positionX, storage.positionY, storage.originalX, storage.originalY,
               storage.velocityX, storage.velocityY, storage.colors, storage.sizes, storage.shapes,
               storage.alphas, storage.scales, storage.rotations
      ensures storage.Valid()
      ensures var samples := Samples(bitmap, SamplingStep(storage.capacity, emissionConfig, bitmap.width, bitmap.height, env.sqrt));
        && storage.particleCount <= |samples|
        && (storage.particleCount == |samples| || storage.particleCount == storage.capacity)
        && forall i :: 0 <= i < storage.capacity ==>
             storage.At(i) == if i < storage.particleCount
               then Seeded(old(storage.At(i)), samples[i], i, bitmap, particleConfig, env)
               else old(storage.At(i))
      ensures storage.particleCount <= |Samples(bitmap, SamplingStep(storage.capacity, emissionConfig, bitmap.width,
                                                                     bitmap.height, env.sqrt))|
      ensures storage.Slots()
        == SeededAll(old(storage.Slots()), Samples(bitmap, SamplingStep(storage.capacity, emissionConfig, bitmap.width,
                                                                        bitmap.height, env.sqrt)),
                     storage.particleCount, bitmap, particleConfig, env)
    {
      var targetCount := if storage.capacity < emissionConfig.particleCount then storage.capacity
                         else emissionConfig.particleCount;
      var stepSize := StepSize(targetCount, bitmap.width, bitmap.height, env.sqrt);
      ghost var base := storage.Slots();
      ghost var visited, rest := SeedGrid(bitmap, stepSize, env, base);
      KeptAppend(bitmap, visited, rest);
      ghost var samples := Samples(bitmap, stepSize);
      assert samples == Kept(bitmap, visited) + Kept(bitmap, rest);
      if storage.particleCount < storage.capacity {
        assert rest == [];
        assert samples == Kept(bitmap, visited);
      }
    }

    /** Lines 110-123 for particle `index`. */
    method DisperseOne(index: nat, env: Env)
      requires storage.Valid() && index < storage.capacity && env.Valid()
      requires emissionController.config == emissionConfig
      modifies storage.sizes, storage.alphas, storage.colors, storage.rotations, storage.velocityX,
               storage.velocityY, storage.scales
      ensures storage.Valid()
      ensures forall i :: 0 <= i < storage.capacity ==>
        storage.At(i) == if i == index then Dispersed(old(storage.At(i)), index, emissionConfig, particleConfig, env)
                         else old(storage.At(i))
    {
      emissionController.ApplyRandomVisualProperties(storage, index, env);
      emissionController.InitializeVelocities(storage, index, particleConfig.velocityMagnitude, env);
      if !emissionConfig.randomAlphas {
        storage.alphas[index] := 1.0;
      }
      if !emissionConfig.randomSizes {
        storage.scales[index] := 1.0;
      }
    }

    /** `initializeDisintegrationParticles`: every particle in use is `Dispersed`. */
    method InitializeDisintegrationParticles(env: Env)
      requires storage.Valid() && env.Valid() && emissionController.config == emissionConfig
      modifies storage.sizes, storage.alphas, storage.colors, storage.rotations, storage.velocityX,
               storage.velocityY, storage.scales
      ensures storage.Valid()
      ensures forall i :: 0 <= i < storage.capacity ==>
        storage.At(i) == if i < storage.particleCount
          then Dispersed(old(storage.At(i)), i, emissionConfig, particleConfig, env)
          else old(storage.At(i))
    {
      var i := 0;
      while i < storage.particleCount
        invariant 0 <= i <= storage.particleCount && storage.Valid()
        invariant forall j :: 0 <= j < storage.capacity ==>
          storage.At(j) == if j < i then Dispersed(old(storage.At(j)), j, emissionConfig, particleConfig, env)
                           else old(storage.At(j))
      {
        DisperseOne(i, env);
        i := i + 1;
      }
    }

    /** Lines 135-158 for particle `index`. */
    method GatherOne(index: nat, env: Env)
      requires storage.Valid() && index < storage.capacity && env.Valid()
      requires emissionController.config == emissionConfig
      modifies storage.sizes, storage.alphas, storage.colors, storage.rotations, storage.scales,
               storage.positionX, storage.positionY, storage.velocityX, storage.velocityY
      ensures storage.Valid()
      ensures forall i :: 0 <= i < storage.capacity ==>
        storage.At(i) == if i == index then Gathered(old(storage.At(i)), index, emissionConfig, env)
                         else old(storage.At(i))
    {
      emissionController.ApplyRandomVisualProperties(storage, index, env);
      ghost var varied := storage.At(index);
      var alpha := 0.3 + env.rand(index, CH_SYSTEM_ALPHA) * 0.2;
      var scale := 0.4 + env.rand(index, CH_SYSTEM_SCALE) * 0.2;
      var angle := env.rand(index, CH_SYSTEM_ANGLE) * 2.0 * PI;
      var distance := 150.0 + env.rand(index, CH_SYSTEM_DISTANCE) * 150.0;
      var offsetX := env.cos(angle) * distance;
      var offsetY := env.sin(angle) * distance;
      var origX, origY := storage.positionX[index], storage.positionY[index];
      assert varied == Varied(emissionConfig, old(storage.At(index)), index, env);
      assert Scatter(index, env) == Vector2(offsetX, offsetY);
      assert origX == varied.positionX && origY == varied.positionY;
      assert Gathered(old(storage.At(index)), index, emissionConfig, env)
             == varied.(alpha := alpha, scale := scale, positionX := origX + offsetX, positionY := origY + offsetY);
      storage.SetLook(index, alpha, scale, storage.rotations[index]);
      storage.SetMotion(index, origX + offsetX, origY + offsetY, storage.velocityX[index], storage.velocityY[index]);
    }

    /** `initializeAssemblyParticles`: every particle in use is `Gathered`. */
    method InitializeAssemblyParticles(env: Env)
      requires storage.Valid() && env.Valid() && emissionController.config == emissionConfig
      modifies storage.sizes, storage.alphas, storage.colors, storage.rotations, storage.scales,
               storage.positionX, storage.positionY, storage.velocityX, storage.velocityY
      ensures storage.Valid()
      ensures forall i :: 0 <= i < storage.capacity ==>
        storage.At(i) == if i < storage.particleCount then Gathered(old(storage.At(i)), i, emissionConfig, env)
                         else old(storage.At(i))
    {
      var i := 0;
      while i < storage.particleCount
        invariant 0 <= i <= storage.particleCount && storage.Valid()
        invariant forall j :: 0 <= j < storage.capacity ==>
          storage.At(j) == if j < i then Gathered(old(storage.At(j)), j, emissionConfig, env) else old(storage.At(j))
      {
        GatherOne(i, env);
        i := i + 1;
      }
    }

    /** The slots after lines 70-81, from the slots `before` them: one
        particle per sampled visible pixel, in sampling order, until the store is
        full, each seeded from its pixel over the emptied slot and prepared for
        `effect`; the slots beyond are emptied and otherwise as they were. */
    ghost predicate Populated(before: seq<Slot>, bitmap: Bitmap, effect: ParticleEffect, env: Env)
      reads storage, storage.Columns()
      requires storage.Sized() && bitmap.Valid() && env.Valid()
    {
      var samples := Samples(bitmap, SamplingStep(storage.capacity, emissionConfig, bitmap.width, bitmap.height, env.sqrt));
      && |before| == storage.capacity && storage.particleCount <= storage.capacity
      && storage.particleCount <= |samples|
      && (storage.particleCount == |samples| || storage.particleCount == storage.capacity)
      && storage.Slots() == PreparedAll(SeededAll(ClearedAll(before), samples, storage.particleCount, bitmap,
                                                  particleConfig, env),
                                        storage.particleCount, effect, emissionConfig, particleConfig, env)
    }

    /** The slots after lines 70-90, from the slots `before` them: as
        `Populated`, and each particle in use then scheduled by the emission
        pattern over the original positions of all particles in use. */
    ghost predicate Generated(before: seq<Slot>, bitmap: Bitmap, effect: ParticleEffect, env: Env)
      reads storage, storage.Columns()
      requires storage.Sized() && bitmap.Valid() && env.Valid()
    {
      var samples := Samples(bitmap, SamplingStep(storage.capacity, emissionConfig, bitmap.width, bitmap.height, env.sqrt));
      && |before| == storage.capacity && storage.particleCount <= storage.capacity
      && storage.particleCount <= |samples|
      && (storage.particleCount == |samples| || storage.particleCount == storage.capacity)
      && storage.Slots() == EmittedAll(PreparedAll(SeededAll(ClearedAll(before), samples, storage.particleCount, bitmap,
                                                             particleConfig, env),
                                                   storage.particleCount, effect, emissionConfig, particleConfig, env),
                                       storage.particleCount, emissionConfig, effect, bitmap.width, bitmap.height, env)
    }

    /** Lines 70-81: the store is emptied, refilled from `bitmap`, and every new
        particle prepared for `effect`. */
    method Populate(bitmap: Bitmap, effect: ParticleEffect, env: Env)
      requires Valid() && bitmap.Valid() && env.Valid()
      modifies storage, storage.positionX, storage.positionY, storage.originalX, storage.originalY,
               storage.velocityX, storage.velocityY, storage.colors, storage.sizes, storage.shapes,
               storage.alphas, storage.scales, storage.rotations, storage.active, storage.pending
      ensures Valid() && Populated(old(storage.Slots()), bitmap, effect, env)
    {
      ghost var s0 := storage.Slots();
      storage.Reset();
      assert storage.Slots() == ClearedAll(s0);
      CreateParticlesFromBitmap(bitmap, env);
      InitializeParticles(effect, env);
    }

    /** Lines 74-80: every particle in use is prepared for `effect`. */
    method InitializeParticles(effect: ParticleEffect, env: Env)
      requires storage.Valid() && env.Valid() && emissionController.config == emissionConfig
      modifies storage.sizes, storage.alphas, storage.colors, storage.rotations, storage.scales,
               storage.positionX, storage.positionY, storage.velocityX, storage.velocityY
      ensures storage.Valid()
      ensures storage.Slots() == PreparedAll(old(storage.Slots()), storage.particleCount, effect, emissionConfig,
                                             particleConfig, env)
    {
      if effect == DISINTEGRATION {
        InitializeDisintegrationParticles(env);
      } else {
        InitializeAssemblyParticles(env);
      }
    }

    /** `generateParticles(bitmap, effect)` at clock reading `now`: the
        behaviours forget their draws, the store holds one prepared particle per
        sampled visible pixel (up to its capacity), each scheduled by the
        emission pattern, and the clock starts afresh. */
    method GenerateParticles(bitmap: Bitmap, effect: ParticleEffect, now: int, env: Env)
      requires Valid() && bitmap.Valid() && env.Valid()
      modifies this`contentWidth, this`contentHeight, this`currentEffect, this`activeParticleCount,
               storage, storage.positionX, storage.positionY, storage.originalX, storage.originalY,
               storage.velocityX, storage.velocityY, storage.colors, storage.sizes, storage.shapes,
               storage.alphas, storage.scales, storage.rotations, storage.active, storage.pending, storage.delays,
               disintegrationPhysics`particleRandomness, disintegrationPhysics`windTime, disintegrationPhysics`updateCount,
               assemblyPhysics`particleRandomness, assemblyPhysics`updateCount, animationController
      ensures Valid()
      ensures currentEffect == Some(effect) && contentWidth == bitmap.width && contentHeight == bitmap.height
      ensures Generated(old(storage.Slots()), bitmap, effect, env)
      ensures activeParticleCount == CountTrue(storage.active[..])
      ensures disintegrationPhysics.particleRandomness == map[] && disintegrationPhysics.windTime == 0.0
      ensures assemblyPhysics.particleRandomness == map[]
      ensures animationController.Timing() == Started(old(animationController.Timing()), now)
      ensures animationController.particleTimeOffsets == map[] && animationController.oscillationPhases == map[]
    {
      ghost var before := storage.Slots();
      Begin(bitmap, effect);
      assert storage.Slots() == before;
      FillAndStart(bitmap, effect, now, env);
    }

    /** Lines 57-68: the content's size and the effect are recorded, and both
        behaviours forget their draws. */
    method Begin(bitmap: Bitmap, effect: ParticleEffect)
      requires Valid()
      modifies this`contentWidth, this`contentHeight, this`currentEffect,
               disintegrationPhysics`particleRandomness, disintegrationPhysics`windTime, disintegrationPhysics`updateCount,
               assemblyPhysics`particleRandomness, assemblyPhysics`updateCount
      ensures Valid()
      ensures currentEffect == Some(effect) && contentWidth == bitmap.width && contentHeight == bitmap.height
      ensures disintegrationPhysics.particleRandomness == map[] && disintegrationPhysics.windTime == 0.0
      ensures assemblyPhysics.particleRandomness == map[]
    {
      contentWidth := bitmap.width;
      contentHeight := bitmap.height;
      currentEffect := Some(effect);
      disintegrationPhysics.Reset();
      assemblyPhysics.Reset();
    }

    /** Lines 70-99: the store is refilled and scheduled, then the clock starts. */
    method FillAndStart(bitmap: Bitmap, effect: ParticleEffect, now: int, env: Env)
      requires Valid() && bitmap.Valid() && env.Valid()
      requires contentWidth == bitmap.width && contentHeight == bitmap.height
      modifies this`activeParticleCount, storage, storage.positionX, storage.positionY, storage.originalX,
               storage.originalY, storage.velocityX, storage.velocityY, storage.colors, storage.sizes, storage.shapes,
               storage.alphas, storage.scales, storage.rotations, storage.active, storage.pending, storage.delays,
               animationController
      ensures Valid()
      ensures Generated(old(storage.Slots()), bitmap, effect, env)
      ensures activeParticleCount == CountTrue(storage.active[..])
      ensures animationController.Timing() == Started(old(animationController.Timing()), now)
      ensures animationController.particleTimeOffsets == map[] && animationController.oscillationPhases == map[]
    {
      Fill(bitmap, effect, env);
      animationController.Start(now);
    }

    /** Lines 70-90: the store is refilled from `bitmap`, every new particle is
        prepared for `effect` and scheduled, and the active ones are counted. */
    method Fill(bitmap: Bitmap, effect: ParticleEffect, env: Env)
      requires Valid() && bitmap.Valid() && env.Valid()
      requires contentWidth == bitmap.width && contentHeight == bitmap.height
      modifies this`activeParticleCount, storage, storage.positionX, storage.positionY, storage.originalX,
               storage.originalY, storage.velocityX, storage.velocityY, storage.colors, storage.sizes, storage.shapes,
               storage.alphas, storage.scales, storage.rotations, storage.active, storage.pending, storage.delays
      ensures Valid()
      ensures Generated(old(storage.Slots()), bitmap, effect, env)
      ensures activeParticleCount == CountTrue(storage.active[..])
    {
      Populate(bitmap, effect, env);
      Schedule(effect, env);
    }

    /** Lines 84-90: every particle in use is given its delay and flags by the
        emission pattern, and the active ones are counted. */
    method Schedule(effect: ParticleEffect, env: Env)
      requires Valid() && env.Valid() && contentWidth > 0 && contentHeight > 0
      modifies this`activeParticleCount, storage.delays, storage.active, storage.pending
      ensures Valid()
      ensures activeParticleCount == CountTrue(storage.active[..])
      ensures storage.Slots() == EmittedAll(old(storage.Slots()), storage.particleCount, emissionConfig, effect,
                                            contentWidth, contentHeight, env)
    {
      ghost var before := storage.Slots();
      emissionController.CalculateDelays(storage, emissionConfig.pattern, contentWidth, contentHeight, effect, env);
      activeParticleCount := storage.GetActiveCount();
      assert OriginalXs(before, storage.particleCount) == storage.originalX[..storage.particleCount];
      assert OriginalYs(before, storage.particleCount) == storage.originalY[..storage.particleCount];
    }

    /** Lines 276-279 for pending particle `i`: released when its delay has come. */
    method ReleaseOne(i: int, progress: real)
      requires Valid() && 0 <= i < storage.particleCount && storage.pending[i]
      modifies storage.active, storage.pending
      ensures Valid()
      ensures forall j :: 0 <= j < storage.capacity ==>
        storage.At(j) == if j == i then Released(old(storage.At(j)), true, progress, emissionConfig)
                         else old(storage.At(j))
    {
      if emissionController.ShouldActivateParticle(storage.delays[i], progress) {
        storage.ActivateParticle(i);
      }
    }

    /** `activatePendingParticles`: every pending particle in use whose delay
        has come, by the clock's raw progress, is released. */
    method ActivatePendingParticles()
      requires Valid()
      modifies storage.active, storage.pending
      ensures Valid()
      ensures forall j :: 0 <= j < storage.capacity ==>
        storage.At(j) == Released(old(storage.At(j)), j < storage.particleCount, animationController.rawProgress,
                                  emissionConfig)
    {
      var progress := animationController.rawProgress;
      var pendingIndices := storage.GetPendingParticleIndices();
      var k := 0;
      while k < |pendingIndices|
        invariant 0 <= k <= |pendingIndices| && Valid()
        invariant forall j :: 0 <= j < storage.capacity ==>
          storage.At(j) == if j in pendingIndices[..k]
            then Released(old(storage.At(j)), true, progress, emissionConfig)
            else old(storage.At(j))
      {
        var i := pendingIndices[k];
        PrefixStep(pendingIndices, k);
        assert storage.At(i) == old(storage.At(i));
        ReleaseOne(i, progress);
        k := k + 1;
      }
      assert pendingIndices[..k] == pendingIndices;
      forall j | 0 <= j < storage.capacity
        ensures storage.At(j) == Released(old(storage.At(j)), j < storage.particleCount, progress, emissionConfig)
      {
        assert j in pendingIndices <==> j < storage.particleCount && old(storage.At(j)).pending;
      }
    }

    /** Slot `index` is what the disintegration behaviour makes of `before`
        with this particle's cached draws, the controller's guidance for it and
        the wind clock as it now reads; the particle is in use. */
    ghost predicate DisintegratedHere(before: Slot, index: nat, progress: real, deltaTime: real, env: Env)
      reads this, storage, storage.Columns(), storage.active, storage.pending, disintegrationPhysics, assemblyPhysics, animationController
      requires Valid() && index < storage.capacity && env.Valid()
    {
      && HasDraws(animationController, index, true)
      && index in disintegrationPhysics.particleRandomness
      && storage.At(index) == DisintegrationBehavior.Disintegrated(before,
           disintegrationPhysics.particleRandomness[index],
           GuidanceOf(animationController, index, 4.0, true, true, env), progress, deltaTime,
           disintegrationPhysics.windTime,
           DisintegrationBehavior.ContentExtent(storage.originalX[..]),
           DisintegrationBehavior.ContentExtent(storage.originalY[..]),
           disintegrationPhysics.config, env, true)
    }

    /** Slot `index` is what the assembly behaviour makes of `before` with this
        particle's cached draws and the controller's guidance for it. */
    ghost predicate AssembledHere(before: Slot, index: nat, progress: real, deltaTime: real, env: Env)
      reads this, storage, storage.Columns(), storage.active, storage.pending, disintegrationPhysics, assemblyPhysics, animationController
      requires Valid() && index < storage.capacity
    {
      && index in assemblyPhysics.particleRandomness
      && HasDraws(animationController, index, assemblyPhysics.config.oscillationStrength > 0.0)
      && storage.At(index) == AssemblyBehavior.Assembled(before, assemblyPhysics.particleRandomness[index],
           GuidanceOf(animationController, index, assemblyPhysics.particleRandomness[index].oscillationFrequency,
                      assemblyPhysics.config.oscillationStrength > 0.0, false, env),
           progress, deltaTime, assemblyPhysics.config, env)
    }

    /** Lines 254-261 for one disintegrating particle in use. */
    method DisintegrateOne(index: nat, deltaTime: real, progress: real, env: Env)
      requires Valid() && index < storage.particleCount && env.Valid()
      modifies disintegrationPhysics`particleRandomness, disintegrationPhysics`windTime,
               disintegrationPhysics`updateCount, animationController,
               storage.positionX, storage.positionY, storage.velocityX, storage.velocityY,
               storage.alphas, storage.scales, storage.rotations, storage.active, storage.pending
      ensures Valid() && animationController.Timing() == old(animationController.Timing())
      ensures disintegrationPhysics.windTime == old(disintegrationPhysics.windTime)
        + (if disintegrationPhysics.config.windEnabled then Clamp(deltaTime, 0.001, 0.1) else 0.0)
      ensures forall i :: 0 <= i < storage.capacity ==>
        if i == index then Evolved(old(storage.At(i)), storage.At(i)) && Retired(storage.At(i))
        else storage.At(i) == old(storage.At(i))
      ensures DisintegratedHere(old(storage.At(index)), index, progress, deltaTime, env)
    {
      ghost var before := storage.At(index);
      disintegrationPhysics.UpdateParticle(storage, index, deltaTime, progress, env);
      DisintegrationBehavior.DisintegratedShape(before, disintegrationPhysics.particleRandomness[index],
        GuidanceOf(animationController, index, 4.0, true, true, env), progress, deltaTime,
        disintegrationPhysics.windTime,
        DisintegrationBehavior.ContentExtent(storage.originalX[..]),
        DisintegrationBehavior.ContentExtent(storage.originalY[..]),
        disintegrationPhysics.config, env, true);
    }

    /** Lines 254-261 for one assembling particle. */
    method AssembleOne(index: nat, deltaTime: real, progress: real, env: Env)
      requires Valid() && index < storage.capacity
      modifies assemblyPhysics`particleRandomness, assemblyPhysics`updateCount, animationController,
               storage.positionX, storage.positionY, storage.velocityX, storage.velocityY,
               storage.alphas, storage.scales, storage.rotations
      ensures Valid() && animationController.Timing() == old(animationController.Timing())
      ensures forall i :: 0 <= i < storage.capacity ==>
        if i == index
        then Evolved(old(storage.At(i)), storage.At(i))
             && storage.At(i).active == old(storage.At(i).active) && storage.At(i).pending == old(storage.At(i).pending)
        else storage.At(i) == old(storage.At(i))
      ensures AssembledHere(old(storage.At(index)), index, progress, deltaTime, env)
    {
      ghost var before := storage.At(index);
      assemblyPhysics.UpdateParticle(storage, index, deltaTime, progress, env);
      AssemblyBehavior.AssembledKeeps(before, assemblyPhysics.particleRandomness[index],
        GuidanceOf(animationController, index, assemblyPhysics.particleRandomness[index].oscillationFrequency,
                   assemblyPhysics.config.oscillationStrength > 0.0, false, env),
        progress, deltaTime, assemblyPhysics.config, env);
    }

    /** The slots after the loop of lines 254-261 has handled `done`, from
        the slots `base` before it. */
    ghost predicate AdvancedFrom(base: seq<Slot>, done: seq<int>, effect: ParticleEffect)
      reads storage, storage.Columns()
      requires storage.Sized()
    {
      && |base| == storage.capacity
      && forall j :: 0 <= j < storage.capacity ==>
           if j in done then Advanced(base[j], storage.At(j), effect) else storage.At(j) == base[j]
    }

    /** Lines 254-261 for one active particle in use: the effect's behaviour
        updates it and no other, and the wind clock advances once. */
    method AdvanceOne(effect: ParticleEffect, index: nat, deltaTime: real, env: Env)
      requires Valid() && env.Valid() && index < storage.particleCount && storage.active[index]
      modifies disintegrationPhysics`particleRandomness, disintegrationPhysics`windTime,
               disintegrationPhysics`updateCount, assemblyPhysics`particleRandomness, assemblyPhysics`updateCount,
               animationController, storage.positionX, storage.positionY, storage.velocityX, storage.velocityY,
               storage.alphas, storage.scales, storage.rotations, storage.active, storage.pending
      ensures Valid() && animationController.Timing() == old(animationController.Timing())
      ensures disintegrationPhysics.windTime == old(disintegrationPhysics.windTime)
        + WindStep(effect, disintegrationPhysics.config.windEnabled, deltaTime)
      ensures forall i :: 0 <= i < storage.capacity ==>
        if i == index then Advanced(old(storage.At(i)), storage.At(i), effect) else storage.At(i) == old(storage.At(i))
      ensures effect == DISINTEGRATION ==>
        DisintegratedHere(old(storage.At(index)), index, animationController.easedProgress, deltaTime, env)
      ensures effect == ASSEMBLY ==>
        AssembledHere(old(storage.At(index)), index, animationController.easedProgress, deltaTime, env)
    {
      if effect == DISINTEGRATION {
        DisintegrateOne(index, deltaTime, animationController.easedProgress, env);
      } else {
        AssembleOne(index, deltaTime, animationController.easedProgress, env);
      }
    }

    /** One turn of the loop of lines 254-261, in terms of the slots `base`
        before the loop and the particles `done` it has handled. */
    method AdvanceStep(effect: ParticleEffect, index: nat, deltaTime: real, env: Env,
                       ghost base: seq<Slot>, ghost done: seq<int>)
      requires Valid() && env.Valid() && AdvancedFrom(base, done, effect)
      requires index < storage.particleCount && base[index].active && index !in done
      modifies disintegrationPhysics`particleRandomness, disintegrationPhysics`windTime,
               disintegrationPhysics`updateCount, assemblyPhysics`particleRandomness, assemblyPhysics`updateCount,
               animationController, storage.positionX, storage.positionY, storage.velocityX, storage.velocityY,
               storage.alphas, storage.scales, storage.rotations, storage.active, storage.pending
      ensures Valid() && animationController.Timing() == old(animationController.Timing())
      ensures disintegrationPhysics.windTime == old(disintegrationPhysics.windTime)
        + WindStep(effect, disintegrationPhysics.config.windEnabled, deltaTime)
      ensures AdvancedFrom(base, done + [index], effect)
    {
      assert storage.At(index) == base[index];
      AdvanceOne(effect, index, deltaTime, env);
    }

    /** Lines 253-261: the effect's behaviour updates each listed particle once,
        at the clock's eased progress; the wind clock advances once per particle. */
    method AdvanceActive(effect: ParticleEffect, indices: seq<int>, deltaTime: real, env: Env)
      requires Valid() && env.Valid()
      requires forall j :: j in indices <==> 0 <= j < storage.particleCount && storage.active[j]
      requires forall a, b :: 0 <= a < b < |indices| ==> indices[a] < indices[b]
      modifies disintegrationPhysics`particleRandomness, disintegrationPhysics`windTime,
               disintegrationPhysics`updateCount, assemblyPhysics`particleRandomness, assemblyPhysics`updateCount,
               animationController, storage.positionX, storage.positionY, storage.velocityX, storage.velocityY,
               storage.alphas, storage.scales, storage.rotations, storage.active, storage.pending
      ensures Valid() && animationController.Timing() == old(animationController.Timing())
      ensures disintegrationPhysics.windTime == old(disintegrationPhysics.windTime)
        + |indices| as real * WindStep(effect, disintegrationPhysics.config.windEnabled, deltaTime)
      ensures forall j :: 0 <= j < storage.capacity ==>
        if old(storage.At(j)).active then Advanced(old(storage.At(j)), storage.At(j), effect)
        else storage.At(j) == old(storage.At(j))
    {
      ghost var step := WindStep(effect, disintegrationPhysics.config.windEnabled, deltaTime);
      ghost var wind := disintegrationPhysics.windTime;
      ghost var base := storage.Slots();
      var k := 0;
      while k < |indices|
        invariant 0 <= k <= |indices| && Valid()
        invariant animationController.Timing() == old(animationController.Timing())
        invariant disintegrationPhysics.windTime == wind + Repeated(k, step)
        invariant AdvancedFrom(base, indices[..k], effect)
      {
        var i := indices[k];
        PrefixStep(indices, k);
        assert indices[..k + 1] == indices[..k] + [i];
        AdvanceStep(effect, i, deltaTime, env, base, indices[..k]);
        k := k + 1;
      }
      RepeatedIsProduct(k, step);
      assert indices[..k] == indices;
      assert forall j :: 0 <= j < storage.capacity ==> (j in indices <==> base[j].active);
    }

    /** The slots after one frame, from the slots `before` it: each slot
        released at `progress` that is then active has been moved by the
        effect's behaviour; every other slot is as release left it. */
    ghost predicate Stepped(before: seq<Slot>, progress: real, effect: ParticleEffect)
      reads storage, storage.Columns()
      requires storage.Sized()
    {
      && |before| == storage.capacity
      && forall j :: 0 <= j < storage.capacity ==>
           var released := Released(before[j], j < storage.particleCount, progress, emissionConfig);
           if released.active then Advanced(released, storage.At(j), effect) else storage.At(j) == released
    }

    /** What a running frame leaves behind, from the slots `before` it and the
        wind clock `wind` before it: the slots are `Stepped`, the wind clock has
        advanced once per particle moved, and `running` says whether any
        particle in use is still active or pending. */
    ghost predicate FrameOutcome(before: seq<Slot>, wind: real, effect: ParticleEffect, deltaTime: real, running: bool)
      reads this, storage, storage.Columns(), animationController, disintegrationPhysics
      requires storage.Sized()
    {
      && storage.particleCount <= storage.capacity
      && Stepped(before, animationController.rawProgress, effect)
      && disintegrationPhysics.windTime
           == wind + activeParticleCount as real * WindStep(effect, disintegrationPhysics.config.windEnabled, deltaTime)
      && (running <==> exists j :: 0 <= j < storage.particleCount && (storage.active[j] || storage.pending[j]))
    }

    /** Lines 244-261: every particle active at the start of the loop is moved
        by the effect's behaviour, and only those; their number is recorded. */
    method AdvanceAll(effect: ParticleEffect, deltaTime: real, env: Env)
      requires Valid() && env.Valid()
      modifies this`activeParticleCount, disintegrationPhysics`particleRandomness, disintegrationPhysics`windTime,
               disintegrationPhysics`updateCount, assemblyPhysics`particleRandomness, assemblyPhysics`updateCount,
               animationController, storage.positionX, storage.positionY, storage.velocityX, storage.velocityY,
               storage.alphas, storage.scales, storage.rotations, storage.active, storage.pending
      ensures Valid() && animationController.Timing() == old(animationController.Timing())
      ensures activeParticleCount == old(CountTrue(storage.active[..]))
      ensures forall j :: 0 <= j < storage.capacity ==>
        if old(storage.At(j)).active then Advanced(old(storage.At(j)), storage.At(j), effect)
        else storage.At(j) == old(storage.At(j))
      ensures disintegrationPhysics.windTime == old(disintegrationPhysics.windTime)
        + activeParticleCount as real * WindStep(effect, disintegrationPhysics.config.windEnabled, deltaTime)
    {
      var activeIndices := storage.GetActiveParticleIndices();
      activeParticleCount := |activeIndices|;
      AdvanceActive(effect, activeIndices, deltaTime, env);
      assert activeParticleCount == |activeIndices|;
    }

    /** Lines 235-261, one frame of a running animation: due particles are
        released, then the effect's behaviour moves every active one. */
    method Frame(effect: ParticleEffect, deltaTime: real, env: Env)
      requires Valid() && env.Valid()
      modifies this`activeParticleCount, disintegrationPhysics`particleRandomness, disintegrationPhysics`windTime,
               disintegrationPhysics`updateCount, assemblyPhysics`particleRandomness, assemblyPhysics`updateCount,
               animationController, storage.positionX, storage.positionY, storage.velocityX, storage.velocityY,
               storage.alphas, storage.scales, storage.rotations, storage.active, storage.pending
      ensures Valid() && animationController.Timing() == old(animationController.Timing())
      ensures Stepped(old(storage.Slots()), animationController.rawProgress, effect)
      ensures disintegrationPhysics.windTime == old(disintegrationPhysics.windTime)
        + activeParticleCount as real * WindStep(effect, disintegrationPhysics.config.windEnabled, deltaTime)
    {
      ActivatePendingParticles();
      AdvanceAll(effect, deltaTime, env);
    }

    /** Lines 225-232 with the two calls swapped, the correction of the frame
        time finding: the frame time is read from the clock as it was before
        the update, and then the clock is updated. As written the frame time
        is `FrameTimeAsWritten`, always the 0.001 floor. */
    method Tick(currentTime: int) returns (deltaTime: real, animationRunning: bool)
      requires Valid()
      modifies animationController
      ensures Valid()
      ensures animationController.Timing() == Updated(old(animationController.Timing()), animationConfig, currentTime).clock
      ensures animationRunning == animationController.isRunning
      ensures deltaTime == FrameTime(old(animationController.Timing()), currentTime)
      ensures storage.Slots() == old(storage.Slots())
      ensures disintegrationPhysics.windTime == old(disintegrationPhysics.windTime)
    {
      deltaTime := Clamp(animationController.DeltaTime(currentTime), 0.001, 0.1);
      animationRunning := animationController.Update(currentTime);
    }

    /** Lines 235-264, the rest of a frame once the clock runs: the frame
        itself, then whether any particle is still active or pending. */
    method RunFrame(effect: ParticleEffect, deltaTime: real, env: Env) returns (running: bool)
      requires Valid() && env.Valid()
      modifies this`activeParticleCount, disintegrationPhysics`particleRandomness, disintegrationPhysics`windTime,
               disintegrationPhysics`updateCount, assemblyPhysics`particleRandomness, assemblyPhysics`updateCount,
               animationController, storage.positionX, storage.positionY, storage.velocityX, storage.velocityY,
               storage.alphas, storage.scales, storage.rotations, storage.active, storage.pending
      ensures Valid() && animationController.Timing() == old(animationController.Timing())
      ensures FrameOutcome(old(storage.Slots()), old(disintegrationPhysics.windTime), effect, deltaTime, running)
    {
      Frame(effect, deltaTime, env);
      var activeCount := storage.GetActiveCount();
      var pendingCount := storage.GetPendingCount();
      running := activeCount > 0 || pendingCount > 0;
    }

    /** `updateAnimation(currentTime)` with the frame time read before the clock
        is updated (the correction of the frame time finding; as written every
        frame runs at `FrameTimeAsWritten`, the 0.001 floor): nothing happens before particles are generated; the clock is
        updated; while it runs, due particles are released, the effect's
        behaviour moves every active one, and the result says whether any
        particle is still active or pending. */
    method UpdateAnimation(currentTime: int, env: Env) returns (running: bool)
      requires Valid() && env.Valid()
      modifies this`activeParticleCount, disintegrationPhysics`particleRandomness, disintegrationPhysics`windTime,
               disintegrationPhysics`updateCount, assemblyPhysics`particleRandomness, assemblyPhysics`updateCount,
               animationController, storage.positionX, storage.positionY, storage.velocityX, storage.velocityY,
               storage.alphas, storage.scales, storage.rotations, storage.active, storage.pending
      ensures Valid()
      ensures currentEffect == None ==>
        && !running && animationController.Timing() == old(animationController.Timing())
        && storage.Slots() == old(storage.Slots())
      ensures currentEffect != None ==>
        animationController.Timing() == Updated(old(animationController.Timing()), animationConfig, currentTime).clock
      ensures currentEffect != None && !animationController.isRunning ==>
        && !running
        && storage.Slots() == old(storage.Slots())
      ensures currentEffect != None && animationController.isRunning ==>
        FrameOutcome(old(storage.Slots()), old(disintegrationPhysics.windTime), currentEffect.value,
                     FrameTime(old(animationController.Timing()), currentTime), running)
    {
      if currentEffect == None {
        return false;
      }
      var effect := currentEffect.value;
      var deltaTime, animationRunning := Tick(currentTime);
      if !animationRunning {
        return false;
      }
      running := RunFrame(effect, deltaTime, env);
    }
  }
}
