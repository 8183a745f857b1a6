/** The force-accumulator integrator shared by the two physics engines
    (physics/PhysicsEngine.kt): forces are summed into an accumulator, then
    `applyForces` turns the sum into a velocity and position change for one
    particle and empties the accumulator. */
module Physics {
  import opened Numeric
  import opened Oracles
  import opened Vectors
  import opened Config
  import opened Environment
  import opened Storage

  /** `((v + F/mass * forceMultiplier * dt) * velocityMultiplier) * dampingFactor`
      with the fixed mass 1. */
  function Damped(v: real, force: real, settings: PhysicsSettings, dt: real): real
  {
    ((v + force / 1.0 * settings.forceMultiplier * dt) * settings.velocityMultiplier) * settings.dampingFactor
  }

  /** A velocity component below `minVelocity` in magnitude is flushed to 0. */
  function Flushed(v: real, minVelocity: real): (r: real)
    ensures r == 0.0 || minVelocity <= Abs(r)
    ensures Abs(v) < minVelocity ==> r == 0.0
    ensures minVelocity <= Abs(v) ==> r == v
  {
    if Abs(v) < minVelocity then 0.0 else v
  }

  /** What `applyForces` does to a particle's slot under the accumulated `force`:
      the new velocity, and the position advanced by it. */
  function Integrated(s: Slot, force: Vector2, settings: PhysicsSettings, dt: real): (r: Slot)
    ensures r.positionX == s.positionX + r.velocityX * dt && r.positionY == s.positionY + r.velocityY * dt
    ensures r.velocityX == 0.0 || settings.minVelocity <= Abs(r.velocityX)
    ensures r.velocityY == 0.0 || settings.minVelocity <= Abs(r.velocityY)
    ensures r == s.(velocityX := r.velocityX, velocityY := r.velocityY, positionX := r.positionX, positionY := r.positionY)
  {
    var vx := Flushed(Damped(s.velocityX, force.x, settings, dt), settings.minVelocity);
    var vy := Flushed(Damped(s.velocityY, force.y, settings, dt), settings.minVelocity);
    s.(velocityX := vx, velocityY := vy, positionX := s.positionX + vx * dt, positionY := s.positionY + vy * dt)
  }

  /** `Integrated` from the new velocity and position, named. */
  lemma IntegratedIs(s: Slot, force: Vector2, settings: PhysicsSettings, dt: real,
                     vx: real, vy: real, px: real, py: real)
    requires vx == Flushed(Damped(s.velocityX, force.x, settings, dt), settings.minVelocity)
    requires vy == Flushed(Damped(s.velocityY, force.y, settings, dt), settings.minVelocity)
    requires px == s.positionX + vx * dt && py == s.positionY + vy * dt
    ensures Integrated(s, force, settings, dt) == s.(positionX := px, positionY := py, velocityX := vx, velocityY := vy)
  {
  }

  /** A particle at rest under no force stays exactly where it is. */
  lemma RestIsFixed(s: Slot, settings: PhysicsSettings, dt: real)
    requires s.velocityX == 0.0 && s.velocityY == 0.0
    ensures Integrated(s, ZERO, settings, dt) == s
  {
    assert Damped(0.0, 0.0, settings, dt) == 0.0;
  }

  /** Without force, and with multiplier and damping whose product lies in [0,1],
      no velocity component grows in magnitude. */
  lemma DampingNeverAccelerates(v: real, settings: PhysicsSettings, dt: real)
    requires 0.0 <= settings.velocityMultiplier && 0.0 <= settings.dampingFactor
    requires settings.velocityMultiplier * settings.dampingFactor <= 1.0
    ensures Abs(Flushed(Damped(v, 0.0, settings, dt), settings.minVelocity)) <= Abs(v)
  {
    var k := settings.velocityMultiplier * settings.dampingFactor;
    var d := Damped(v, 0.0, settings, dt);
    assert d == v * k;
    ScaleNonNegative(0.0, settings.velocityMultiplier, settings.dampingFactor);
    ShrinkMagnitude(v, k, d);
  }

  /** Scaling by a factor in [0, 1] never increases a magnitude. */
  lemma ShrinkMagnitude(v: real, k: real, d: real)
    requires 0.0 <= k <= 1.0 && d == v * k
    ensures Abs(d) <= Abs(v)
  {
    var a := Abs(v);
    var m := a * k;
    if v < 0.0 {
      assert m == (-v) * k == -(v * k);
      ScaleNonNegative(0.0, k, -v);
    }
    assert Abs(d) == m;
    ScaleNonNegative(0.0, k, a);
    ScaleNonNegative(k, 1.0, a);
    assert 0.0 * a == 0.0 && 1.0 * a == a;
    assert k * a == m;
  }

  /** `addDirectionalForce(angle, magnitude)`: `magnitude` along the direction
      `angle`, given in degrees. */
  function DirectionalForce(angle: real, magnitude: real, env: Env): Vector2
  {
    var radians := angle / 180.0 * PI;
    Vector2(env.cos(radians) * magnitude, env.sin(radians) * magnitude)
  }

  /** The directional force has exactly the requested magnitude. */
  lemma DirectionalForceLength(angle: real, magnitude: real, env: Env)
    requires IsTrig(env.sin, env.cos)
    ensures LengthSquared(DirectionalForce(angle, magnitude, env)) == magnitude * magnitude
  {
    var radians := angle / 180.0 * PI;
    var c, s := env.cos(radians), env.sin(radians);
    assert s * s + c * c == 1.0;
    RotatedMagnitude(c, s, magnitude);
  }

  /** `addAttractionForce` with displacement (dx, dy) from the particle to the
      target: `strength` toward the target, or nothing within `minDistance`. */
  function AttractionForce(dx: real, dy: real, strength: real, minDistance: real, sqrt: real -> real): Vector2
    requires IsSqrt(sqrt) && minDistance != 0.0
  {
    var distanceSquared := dx * dx + dy * dy;
    if distanceSquared < minDistance * minDistance then ZERO
    else
      var distance := Distance(dx, dy, minDistance, sqrt);
      Vector2(dx / distance * strength, dy / distance * strength)
  }

  /** The root of the squared distance, positive once it reaches `minDistance`. */
  function Distance(dx: real, dy: real, minDistance: real, sqrt: real -> real): (d: real)
    requires IsSqrt(sqrt) && minDistance != 0.0 && minDistance * minDistance <= dx * dx + dy * dy
    ensures 0.0 < d && d * d == dx * dx + dy * dy
  {
    Square(minDistance, minDistance * minDistance);
    SqrtPositive(sqrt, dx * dx + dy * dy);
    sqrt(dx * dx + dy * dy)
  }

  /** Within `minDistance` there is no pull; beyond it the pull has magnitude
      |strength| and points along the displacement. */
  lemma AttractionForceShape(dx: real, dy: real, strength: real, minDistance: real, sqrt: real -> real)
    requires IsSqrt(sqrt) && minDistance != 0.0
    ensures dx * dx + dy * dy < minDistance * minDistance ==> AttractionForce(dx, dy, strength, minDistance, sqrt) == ZERO
    ensures minDistance * minDistance <= dx * dx + dy * dy ==>
              LengthSquared(AttractionForce(dx, dy, strength, minDistance, sqrt)) == strength * strength
  {
    if minDistance * minDistance <= dx * dx + dy * dy {
      var d := Distance(dx, dy, minDistance, sqrt);
      UnitDirection(dx, dy, d, strength);
    }
  }

  lemma UnitDirection(dx: real, dy: real, d: real, strength: real)
    requires 0.0 < d && d * d == dx * dx + dy * dy
    ensures (dx / d * strength) * (dx / d * strength) + (dy / d * strength) * (dy / d * strength) == strength * strength
  {
    var ux, uy := dx / d, dy / d;
    var dd := d * d;
    ProductPositive(d, d, dd);
    ScaledSquare(ux, d, dx, dd);
    ScaledSquare(uy, d, dy, dd);
    SumCancels(ux * ux, uy * uy, dd, dx * dx, dy * dy);
    RotatedMagnitude(ux, uy, strength);
  }

  /** `addSpringForce`: Hooke's law toward the anchor plus velocity damping. */
  function SpringForce(s: Slot, anchorX: real, anchorY: real, stiffness: real, damping: real): Vector2
  {
    Vector2(-stiffness * (s.positionX - anchorX) + -damping * s.velocityX,
            -stiffness * (s.positionY - anchorY) + -damping * s.velocityY)
  }

  /** The spring force computed term by term from a slot's fields. */
  lemma SpringForceIs(s: Slot, anchorX: real, anchorY: real, stiffness: real, damping: real, fx: real, fy: real)
    requires fx == -stiffness * (s.positionX - anchorX) + -damping * s.velocityX
    requires fy == -stiffness * (s.positionY - anchorY) + -damping * s.velocityY
    ensures SpringForce(s, anchorX, anchorY, stiffness, damping) == Vector2(fx, fy)
  {
  }

  /** At the anchor and at rest a spring pulls with no force; without damping a
      positive stiffness always pulls back toward the anchor. */
  lemma SpringForceRestores(s: Slot, anchorX: real, anchorY: real, stiffness: real, damping: real)
    ensures s.positionX == anchorX && s.positionY == anchorY && s.velocityX == 0.0 && s.velocityY == 0.0 ==>
              SpringForce(s, anchorX, anchorY, stiffness, damping) == ZERO
    ensures 0.0 < stiffness && damping == 0.0 ==>
              SpringForce(s, anchorX, anchorY, stiffness, damping).x * (s.positionX - anchorX) <= 0.0
              && SpringForce(s, anchorX, anchorY, stiffness, damping).y * (s.positionY - anchorY) <= 0.0
  {
    if 0.0 < stiffness && damping == 0.0 {
      var ex, ey := s.positionX - anchorX, s.positionY - anchorY;
      assert SpringForce(s, anchorX, anchorY, stiffness, damping).x * ex == -stiffness * (ex * ex);
      assert SpringForce(s, anchorX, anchorY, stiffness, damping).y * ey == -stiffness * (ey * ey);
      Square(ex, ex * ex);
      Square(ey, ey * ey);
      ScaleNonNegative(0.0, ex * ex, stiffness);
      ScaleNonNegative(0.0, ey * ey, stiffness);
    }
  }

  /** The private `noise(x, y, z)`: the square of the truncated fractional part
      of a scaled sine, which always lies in [0, 1). */
  function Noise(x: real, y: real, z: real, env: Env): (r: real)
    ensures 0.0 <= r < 1.0
  {
    var scaled := 1234.5 * env.sin(x * 0.0123 + y * 0.0456 + z * 0.0789);
    KotlinRemBounds(scaled, 1.0);
    FractionSquared(KotlinRem(scaled, 1.0))
  }

  /** The square of a number strictly between -1 and 1 lies in [0, 1). */
  function FractionSquared(h: real): (r: real)
    requires -1.0 < h < 1.0
    ensures 0.0 <= r < 1.0
  {
    FractionSquareBound(h);
    h * h
  }

  lemma FractionSquareBound(h: real)
    requires -1.0 < h < 1.0
    ensures 0.0 <= h * h < 1.0
  {
    Square(h, h * h);
    if h >= 0.0 {
      SquareStrictlyMonotone(h, 1.0);
    } else {
      assert h * h == (-h) * (-h);
      SquareStrictlyMonotone(-h, 1.0);
    }
  }

  /** The two noise samples `addTurbulence` takes for a particle at (px, py),
      each mapped from [0, 1) to [-1, 1). */
  function NoisePair(px: real, py: real, time: real, settings: PhysicsSettings, env: Env): (n: Vector2)
    ensures -1.0 <= n.x < 1.0 && -1.0 <= n.y < 1.0
  {
    Vector2(Noise(px * settings.turbulenceScale, py * settings.turbulenceScale, time, env) * 2.0 - 1.0,
            Noise(px * settings.turbulenceScale + 100.0, py * settings.turbulenceScale + 100.0, time + 100.0, env) * 2.0 - 1.0)
  }

  /** `addTurbulence` for a particle at (px, py): noise-driven force of at most
      `turbulenceStrength` per axis, or nothing when turbulence is disabled. */
  function TurbulenceForce(px: real, py: real, time: real, settings: PhysicsSettings, env: Env): Vector2
  {
    if !settings.turbulenceEnabled then ZERO
    else Times(NoisePair(px, py, time, settings, env), settings.turbulenceStrength)
  }

  lemma TurbulenceBounded(px: real, py: real, time: real, settings: PhysicsSettings, env: Env)
    ensures !settings.turbulenceEnabled ==> TurbulenceForce(px, py, time, settings, env) == ZERO
    ensures Abs(TurbulenceForce(px, py, time, settings, env).x) <= Abs(settings.turbulenceStrength)
    ensures Abs(TurbulenceForce(px, py, time, settings, env).y) <= Abs(settings.turbulenceStrength)
  {
    if settings.turbulenceEnabled {
      var n := NoisePair(px, py, time, settings, env);
      var f := TurbulenceForce(px, py, time, settings, env);
      assert f.x == n.x * settings.turbulenceStrength && f.y == n.y * settings.turbulenceStrength;
      UnitScaledBound(n.x, settings.turbulenceStrength, f.x);
      UnitScaledBound(n.y, settings.turbulenceStrength, f.y);
    }
  }

  /** A factor in [-1, 1] does not enlarge a magnitude. */
  lemma UnitScaledBound(u: real, m: real, p: real)
    requires -1.0 <= u <= 1.0 && p == u * m
    ensures Abs(p) <= Abs(m)
  {
    var c := Abs(m);
    UnitTimesNonNegative(u, c);
    SameMagnitude(u, m, c);
    AbsWithin(p, u * c, c);
  }

  lemma SameMagnitude(u: real, m: real, c: real)
    requires c == m || c == -m
    ensures u * c == u * m || u * c == -(u * m)
  {
  }

  lemma AbsWithin(p: real, q: real, c: real)
    requires q == p || q == -p
    requires -c <= q <= c
    ensures Abs(p) <= c
  {
  }

  lemma UnitTimesNonNegative(u: real, c: real)
    requires -1.0 <= u <= 1.0 && 0.0 <= c
    ensures -c <= u * c <= c
  {
    ScaleNonNegative(u, 1.0, c);
    ScaleNonNegative(-1.0, u, c);
  }

  /** The engine base class: its settings and the force accumulator
      (`tempForceX[0]`, `tempForceY[0]`). */
  class PhysicsEngine {
    const settings: PhysicsSettings
    var tempForceX: real
    var tempForceY: real

    /** The accumulated force. */
    function Force(): Vector2
      reads this
    {
      Vector2(tempForceX, tempForceY)
    }

    /** Between particle updates the accumulator is empty. */
    predicate Idle()
      reads this
    {
      tempForceX == 0.0 && tempForceY == 0.0
    }

    constructor(settings: PhysicsSettings)
      ensures this.settings == settings && Idle()
    {
      this.settings := settings;
      tempForceX, tempForceY := 0.0, 0.0;
    }

    /** `addForce(forceX, forceY)` */
    method AddForce(forceX: real, forceY: real)
      modifies this
      ensures Force() == Vector2(old(tempForceX) + forceX, old(tempForceY) + forceY)
    {
      tempForceX := tempForceX + forceX;
      tempForceY := tempForceY + forceY;
    }

    /** `addDirectionalForce(angle, magnitude)` */
    method AddDirectionalForce(angle: real, magnitude: real, env: Env)
      modifies this
      ensures var f := DirectionalForce(angle, magnitude, env);
              Force() == Vector2(old(tempForceX) + f.x, old(tempForceY) + f.y)
    {
      var radians := angle / 180.0 * PI;
      var forceX := env.cos(radians) * magnitude;
      var forceY := env.sin(radians) * magnitude;
      AddForce(forceX, forceY);
    }

    /** `addAttractionForce(storage, index, targetX, targetY, strength, minDistance)` */
    method AddAttractionForce(storage: ParticleStorage, index: int, targetX: real, targetY: real,
                              strength: real, minDistance: real, sqrt: real -> real)
      requires storage.Sized() && 0 <= index < storage.capacity
      requires IsSqrt(sqrt) && minDistance != 0.0
      modifies this
      ensures var f := AttractionForce(targetX - storage.positionX[index], targetY - storage.positionY[index],
                                       strength, minDistance, sqrt);
              Force() == Vector2(old(tempForceX) + f.x, old(tempForceY) + f.y)
    {
      var dx := targetX - storage.positionX[index];
      var dy := targetY - storage.positionY[index];
      var distanceSquared := dx * dx + dy * dy;
      if distanceSquared < minDistance * minDistance {
        return;
      }
      var distance := Distance(dx, dy, minDistance, sqrt);
      var dirX := dx / distance;
      var dirY := dy / distance;
      AddForce(dirX * strength, dirY * strength);
    }

    /** `addSpringForce(storage, index, anchorX, anchorY, stiffness, damping)` */
    method AddSpringForce(storage: ParticleStorage, index: int, anchorX: real, anchorY: real,
                          stiffness: real, damping: real)
      requires storage.Sized() && 0 <= index < storage.capacity
      modifies this
      ensures var f := SpringForce(storage.At(index), anchorX, anchorY, stiffness, damping);
              Force() == Vector2(old(tempForceX) + f.x, old(tempForceY) + f.y)
    {
      var dx := storage.positionX[index] - anchorX;
      var dy := storage.positionY[index] - anchorY;
      var springForceX := -stiffness * dx;
      var springForceY := -stiffness * dy;
      var dampingForceX := -damping * storage.velocityX[index];
      var dampingForceY := -damping * storage.velocityY[index];
      SpringForceIs(storage.At(index), anchorX, anchorY, stiffness, damping,
                    springForceX + dampingForceX, springForceY + dampingForceY);
      AddForce(springForceX + dampingForceX, springForceY + dampingForceY);
    }

    /** `addTurbulence(storage, index, time)` */
    method AddTurbulence(storage: ParticleStorage, index: int, time: real, env: Env)
      requires storage.Sized() && 0 <= index < storage.capacity
      modifies this
      ensures var f := TurbulenceForce(storage.positionX[index], storage.positionY[index], time, settings, env);
              Force() == Vector2(old(tempForceX) + f.x, old(tempForceY) + f.y)
    {
      if !settings.turbulenceEnabled {
        return;
      }
      var px := storage.positionX[index];
      var py := storage.positionY[index];
      var noise := NoisePair(px, py, time, settings, env);
      AddForce(noise.x * settings.turbulenceStrength, noise.y * settings.turbulenceStrength);
    }

    /** One velocity component as `applyForces` updates it: accelerate by the
        force (mass 1), scale by the velocity multiplier and the damping factor,
        then flush a component slower than `minVelocity` to zero. */
    method NewVelocity(v: real, force: real, deltaTime: real) returns (vNew: real)
      ensures vNew == Flushed(Damped(v, force, settings, deltaTime), settings.minVelocity)
    {
      var mass := 1.0;
      var accel := force / mass * settings.forceMultiplier;
      vNew := v + accel * deltaTime;
      vNew := vNew * settings.velocityMultiplier;
      vNew := vNew * settings.dampingFactor;
      if Abs(vNew) < settings.minVelocity {
        vNew := 0.0;
      }
    }

    /** `applyForces(storage, index, deltaTime)`: integrates particle `index`
        under the accumulated force, then empties the accumulator. */
    method ApplyForces(storage: ParticleStorage, index: int, deltaTime: real)
      requires storage.Valid() && 0 <= index < storage.capacity
      modifies this, storage.velocityX, storage.velocityY, storage.positionX, storage.positionY
      ensures Idle() && storage.Valid()
      ensures forall i :: 0 <= i < storage.capacity ==>
        storage.At(i) == if i == index then Integrated(old(storage.At(i)), old(Force()), settings, deltaTime)
                         else old(storage.At(i))
    {
      ghost var before := storage.At(index);
      var vx := NewVelocity(storage.velocityX[index], tempForceX, deltaTime);
      var vy := NewVelocity(storage.velocityY[index], tempForceY, deltaTime);
      var px := storage.positionX[index] + vx * deltaTime;
      var py := storage.positionY[index] + vy * deltaTime;
      IntegratedIs(before, Force(), settings, deltaTime, vx, vy, px, py);
      storage.SetMotion(index, px, py, vx, vy);
      assert storage.At(index) == Integrated(before, Force(), settings, deltaTime);
      label moved:
      tempForceX := 0.0;
      tempForceY := 0.0;
      assert forall i :: 0 <= i < storage.capacity ==> storage.At(i) == old@moved(storage.At(i));
    }
  }
}
