/** The columnar particle store (particle/ParticleStorage.kt): one fixed-size
    array per particle attribute, a `particleCount` cursor below which slots are in
    use, and the `active`/`pending` flags that say which particles the frame loop
    simulates and which wait for their emission delay. */
module Storage {
  import opened Pixels

  /** Everything the store holds for one index, read across all columns. */
  datatype Slot = Slot(
    positionX: real, positionY: real,
    originalX: real, originalY: real,
    velocityX: real, velocityY: real,
    color: Rgba, size: real, alpha: real, scale: real, rotation: real, shape: int,
    active: bool, pending: bool, delay: real)

  /** The slot `createParticle` writes: at rest on its own pixel, fully opaque, at
      scale 1 and unrotated. Flags and delay are left as they were. */
  function Created(s: Slot, x: real, y: real, color: Rgba, shape: int, size: real): (r: Slot)
    ensures r.positionX == r.originalX == x && r.positionY == r.originalY == y
    ensures r.velocityX == 0.0 && r.velocityY == 0.0
    ensures r.alpha == 1.0 && r.scale == 1.0 && r.rotation == 0.0
    ensures r.color == color && r.size == size && r.shape == shape
    ensures r.active == s.active && r.pending == s.pending && r.delay == s.delay
  {
    s.(positionX := x, positionY := y, originalX := x, originalY := y,
       velocityX := 0.0, velocityY := 0.0, color := color, size := size, shape := shape,
       alpha := 1.0, scale := 1.0, rotation := 0.0)
  }

  /** The ascending indices below `n` whose flag is set: what the index queries return. */
  function IndicesWhere(flags: seq<bool>, n: nat): seq<int>
    requires n <= |flags|
  {
    if n == 0 then [] else IndicesWhere(flags, n - 1) + (if flags[n - 1] then [n - 1] else [])
  }

  /** Every listed index is below `n` and flagged, every flagged index below `n` is
      listed, and the list is strictly ascending. */
  lemma {:induction false} IndicesWhereExact(flags: seq<bool>, n: nat)
    requires n <= |flags|
    ensures forall i :: i in IndicesWhere(flags, n) <==> 0 <= i < n && flags[i]
    ensures forall a, b :: 0 <= a < b < |IndicesWhere(flags, n)| ==>
      IndicesWhere(flags, n)[a] < IndicesWhere(flags, n)[b]
  {
    if n > 0 {
      var before := IndicesWhere(flags, n - 1);
      IndicesWhereExact(flags, n - 1);
      assert forall k :: 0 <= k < |before| ==> before[k] in before;
    }
  }

  /** The number of set flags in the whole column (Kotlin's `count { it }`). */
  function CountTrue(flags: seq<bool>): nat
  {
    if flags == [] then 0 else CountTrue(flags[..|flags| - 1]) + (if flags[|flags| - 1] then 1 else 0)
  }

  lemma {:induction false} CountOfPrefix(flags: seq<bool>, n: nat)
    requires n <= |flags|
    ensures |IndicesWhere(flags, n)| == CountTrue(flags[..n])
  {
    if n > 0 {
      CountOfPrefix(flags, n - 1);
      assert flags[..n][..n - 1] == flags[..n - 1];
    }
  }

  lemma {:induction false} CountIgnoresClearTail(flags: seq<bool>, n: nat)
    requires n <= |flags|
    requires forall i :: n <= i < |flags| ==> !flags[i]
    ensures CountTrue(flags) == CountTrue(flags[..n])
    decreases |flags| - n
  {
    if n < |flags| {
      var shorter := flags[..|flags| - 1];
      CountIgnoresClearTail(shorter, n);
      assert shorter[..n] == flags[..n];
    } else {
      assert flags[..n] == flags;
    }
  }

  /** When no flag is set at or beyond `n`, counting the whole column (what
      `getActiveCount`/`getPendingCount` do) gives the length of the index list. */
  lemma CountMatchesIndices(flags: seq<bool>, n: nat)
    requires n <= |flags|
    requires forall i :: n <= i < |flags| ==> !flags[i]
    ensures CountTrue(flags) == |IndicesWhere(flags, n)|
  {
    CountOfPrefix(flags, n);
    CountIgnoresClearTail(flags, n);
  }

  /** With no flag set at or beyond `n`, the count is positive exactly when some
      slot below `n` is flagged. */
  lemma CountPositive(flags: seq<bool>, n: nat)
    requires n <= |flags|
    requires forall i :: n <= i < |flags| ==> !flags[i]
    ensures CountTrue(flags) > 0 <==> exists i :: 0 <= i < n && flags[i]
  {
    CountMatchesIndices(flags, n);
    IndicesWhereExact(flags, n);
    var r := IndicesWhere(flags, n);
    if |r| > 0 {
      assert r[0] in r;
    }
  }

  /** The loop behind both index queries: keep the indices below `n` whose flag is set. */
  method SelectFlagged(flags: array<bool>, n: nat) returns (r: seq<int>)
    requires n <= flags.Length
    ensures r == IndicesWhere(flags[..], n)
  {
    r := [];
    var i := 0;
    while i < n
      invariant i <= n
      invariant r == IndicesWhere(flags[..], i)
    {
      if flags[i] {
        r := r + [i];
      }
      i := i + 1;
    }
  }

  /** The loop behind both counts: the number of set flags in the whole array. */
  method CountFlagged(flags: array<bool>) returns (count: nat)
    ensures count == CountTrue(flags[..])
  {
    count := 0;
    var i := 0;
    while i < flags.Length
      invariant i <= flags.Length
      invariant count == CountTrue(flags[..i])
    {
      assert flags[..i + 1][..i] == flags[..i];
      if flags[i] {
        count := count + 1;
      }
      i := i + 1;
    }
    assert flags[..flags.Length] == flags[..];
  }

  class ParticleStorage {
    const capacity: nat
    const positionX: array<real>
    const positionY: array<real>
    const originalX: array<real>
    const originalY: array<real>
    const velocityX: array<real>
    const velocityY: array<real>
    const colors: array<Rgba>
    const sizes: array<real>
    const alphas: array<real>
    const scales: array<real>
    const rotations: array<real>
    const shapes: array<int>
    const active: array<bool>
    const pending: array<bool>
    const delays: array<real>
    var particleCount: nat

    /** Every column has one entry per slot. */
    ghost predicate Sized()
      reads this
    {
      && positionX.Length == capacity
      && positionY.Length == capacity
      && originalX.Length == capacity
      && originalY.Length == capacity
      && velocityX.Length == capacity
      && velocityY.Length == capacity
      && colors.Length == capacity
      && sizes.Length == capacity
      && alphas.Length == capacity
      && scales.Length == capacity
      && rotations.Length == capacity
      && shapes.Length == capacity
      && active.Length == capacity
      && pending.Length == capacity
      && delays.Length == capacity
    }

    /** No two columns share an array. */
    ghost predicate Distinct()
      reads this
    {
      && active != pending
      && positionX != positionY && positionX != originalX && positionX != originalY && positionX != velocityX
      && positionX != velocityY && positionX != sizes && positionX != alphas && positionX != scales
      && positionX != rotations && positionX != delays && positionY != originalX && positionY != originalY
      && positionY != velocityX && positionY != velocityY && positionY != sizes && positionY != alphas
      && positionY != scales && positionY != rotations && positionY != delays && originalX != originalY
      && originalX != velocityX && originalX != velocityY && originalX != sizes && originalX != alphas
      && originalX != scales && originalX != rotations && originalX != delays && originalY != velocityX
      && originalY != velocityY && originalY != sizes && originalY != alphas && originalY != scales
      && originalY != rotations && originalY != delays && velocityX != velocityY && velocityX != sizes
      && velocityX != alphas && velocityX != scales && velocityX != rotations && velocityX != delays
      && velocityY != sizes && velocityY != alphas && velocityY != scales && velocityY != rotations
      && velocityY != delays && sizes != alphas && sizes != scales && sizes != rotations
      && sizes != delays && alphas != scales && alphas != rotations && alphas != delays
      && scales != rotations && scales != delays && rotations != delays
    }

    /** The store's invariant: the cursor stays within capacity, no slot at or
        beyond the cursor carries a flag, and no slot is both active and pending. */
    ghost predicate Valid()
      reads this, active, pending
    {
      && Sized()
      && Distinct()
      && particleCount <= capacity
      && (forall i :: particleCount <= i < capacity ==> !active[i] && !pending[i])
      && (forall i :: 0 <= i < capacity ==> !(active[i] && pending[i]))
    }

    ghost function Columns(): set<object>
      reads this
    {
      {positionX, positionY, originalX, originalY, velocityX, velocityY, colors, sizes, alphas, scales, rotations, shapes, active, pending, delays}
    }

    /** The contents of slot `i`. */
    ghost function At(i: int): Slot
      reads this, Columns()
      requires Sized() && 0 <= i < capacity
    {
      Slot(positionX[i], positionY[i], originalX[i], originalY[i], velocityX[i], velocityY[i],
           colors[i], sizes[i], alphas[i], scales[i], rotations[i], shapes[i],
           active[i], pending[i], delays[i])
    }

    /** The contents of every slot, in index order. */
    ghost function Slots(): (r: seq<Slot>)
      reads this, Columns()
      requires Sized()
      ensures |r| == capacity && forall i :: 0 <= i < capacity ==> r[i] == At(i)
    {
      seq(capacity, i requires 0 <= i < capacity reads this, Columns() => At(i))
    }

    /** `ParticleStorage(capacity)`: every column allocated with its default (alphas
        and scales 1, colours white, flags clear, everything else 0); the store is empty. */
    constructor (capacity: nat)
      ensures Valid() && this.capacity == capacity && particleCount == 0
      ensures fresh(positionX) && fresh(positionY) && fresh(originalX) && fresh(originalY)
      ensures fresh(velocityX) && fresh(velocityY) && fresh(colors) && fresh(sizes)
      ensures fresh(alphas) && fresh(scales) && fresh(rotations) && fresh(shapes)
      ensures fresh(active) && fresh(pending) && fresh(delays)
    {
      this.capacity := capacity;
      positionX := new real[capacity](_ => 0.0);
      positionY := new real[capacity](_ => 0.0);
      originalX := new real[capacity](_ => 0.0);
      originalY := new real[capacity](_ => 0.0);
      velocityX := new real[capacity](_ => 0.0);
      velocityY := new real[capacity](_ => 0.0);
      sizes := new real[capacity](_ => 0.0);
      alphas := new real[capacity](_ => 1.0);
      scales := new real[capacity](_ => 1.0);
      rotations := new real[capacity](_ => 0.0);
      delays := new real[capacity](_ => 0.0);
      colors := new Rgba[capacity](_ => WHITE);
      shapes := new int[capacity](_ => 0);
      active := new bool[capacity](_ => false);
      pending := new bool[capacity](_ => false);
      particleCount := 0;
      new;
      assert Sized();
      assert Distinct();
    }

    /** `reset`: empties the store by moving the cursor to 0 and clearing every
        flag across the whole capacity; all other columns keep their contents. */
    method Reset()
      requires Valid()
      modifies this, active, pending
      ensures Valid() && particleCount == 0
      ensures forall i :: 0 <= i < capacity ==> At(i) == old(At(i)).(active := false, pending := false)
    {
      particleCount := 0;
      forall i | 0 <= i < active.Length {
        active[i] := false;
      }
      forall i | 0 <= i < pending.Length {
        pending[i] := false;
      }
    }

    /** Places the slot `createParticle` claims on its pixel, at rest. */
    method PlaceSlot(index: nat, x: real, y: real)
      requires Sized() && Distinct() && index < capacity
      modifies positionX, positionY, originalX, originalY, velocityX, velocityY
      ensures forall i :: 0 <= i < capacity ==>
        At(i) == if i == index
          then old(At(i)).(positionX := x, positionY := y, originalX := x, originalY := y, velocityX := 0.0, velocityY := 0.0)
          else old(At(i))
    {
      originalX[index] := x;
      originalY[index] := y;
      positionX[index] := x;
      positionY[index] := y;
      velocityX[index] := 0.0;
      velocityY[index] := 0.0;
    }

    /** Gives the slot `createParticle` claims its look: colour, size and shape,
        full opacity, scale 1, no rotation. */
    method StyleSlot(index: nat, color: Rgba, shape: int, size: real)
      requires Sized() && Distinct() && index < capacity
      modifies colors, sizes, shapes, alphas, scales, rotations
      ensures forall i :: 0 <= i < capacity ==>
        At(i) == if i == index
          then old(At(i)).(color := color, size := size, shape := shape, alpha := 1.0, scale := 1.0, rotation := 0.0)
          else old(At(i))
    {
      colors[index] := color;
      sizes[index] := size;
      shapes[index] := shape;
      alphas[index] := 1.0;
      scales[index] := 1.0;
      rotations[index] := 0.0;
    }

    /** Overwrites the position and velocity of slot `index`, the writes every
        physics step makes. */
    method SetMotion(index: nat, px: real, py: real, vx: real, vy: real)
      requires Sized() && Distinct() && index < capacity
      modifies positionX, positionY, velocityX, velocityY
      ensures forall i :: 0 <= i < capacity ==>
        At(i) == if i == index
          then old(At(i)).(positionX := px, positionY := py, velocityX := vx, velocityY := vy)
          else old(At(i))
    {
      positionX[index] := px;
      positionY[index] := py;
      velocityX[index] := vx;
      velocityY[index] := vy;
    }

    /** Overwrites the alpha, scale and rotation of slot `index`. */
    method SetLook(index: nat, alpha: real, scale: real, rotation: real)
      requires Sized() && Distinct() && index < capacity
      modifies alphas, scales, rotations
      ensures forall i :: 0 <= i < capacity ==>
        At(i) == if i == index
          then old(At(i)).(alpha := alpha, scale := scale, rotation := rotation)
          else old(At(i))
    {
      alphas[index] := alpha;
      scales[index] := scale;
      rotations[index] := rotation;
    }

    /** `createParticle`: when full, returns -1 and changes nothing; otherwise claims
        the slot at the cursor, returns its index and advances the cursor by one. */
    method CreateParticle(x: real, y: real, color: Rgba, shape: int, size: real) returns (index: int)
      requires Valid()
      modifies this, positionX, positionY, originalX, originalY, velocityX, velocityY,
        colors, sizes, shapes, alphas, scales, rotations
      ensures Valid()
      ensures old(particleCount) >= capacity ==> index == -1 && particleCount == old(particleCount)
      ensures old(particleCount) < capacity ==> index == old(particleCount) && particleCount == index + 1
      ensures forall i :: 0 <= i < capacity ==>
        At(i) == if i == index then Created(old(At(i)), x, y, color, shape, size) else old(At(i))
    {
      if particleCount >= capacity {
        return -1;
      }
      index := particleCount;
      PlaceSlot(index, x, y);
      StyleSlot(index, color, shape, size);
      particleCount := particleCount + 1;
    }

    /** `getActiveParticleIndices` */
    method GetActiveParticleIndices() returns (r: seq<int>)
      requires Valid()
      ensures forall i :: i in r <==> 0 <= i < particleCount && active[i]
      ensures forall a, b :: 0 <= a < b < |r| ==> r[a] < r[b]
      ensures |r| == CountTrue(active[..])
    {
      r := SelectFlagged(active, particleCount);
      IndicesWhereExact(active[..], particleCount);
      CountMatchesIndices(active[..], particleCount);
    }

    /** `getPendingParticleIndices` */
    method GetPendingParticleIndices() returns (r: seq<int>)
      requires Valid()
      ensures forall i :: i in r <==> 0 <= i < particleCount && pending[i]
      ensures forall a, b :: 0 <= a < b < |r| ==> r[a] < r[b]
      ensures |r| == CountTrue(pending[..])
    {
      r := SelectFlagged(pending, particleCount);
      IndicesWhereExact(pending[..], particleCount);
      CountMatchesIndices(pending[..], particleCount);
    }

    /** `activateParticle`: an in-use slot becomes active and stops pending; any
        other index is ignored. */
    method ActivateParticle(index: int)
      requires Valid()
      modifies active, pending
      ensures Valid()
      ensures forall i :: 0 <= i < capacity ==>
        At(i) == if i == index && index < particleCount then old(At(i)).(active := true, pending := false) else old(At(i))
    {
      if 0 <= index < particleCount {
        pending[index] := false;
        active[index] := true;
      }
    }

    /** `deactivateParticle`: an in-use slot loses both flags; any other index is ignored. */
    method DeactivateParticle(index: int)
      requires Valid()
      modifies active, pending
      ensures Valid()
      ensures forall i :: 0 <= i < capacity ==>
        At(i) == if i == index && index < particleCount then old(At(i)).(active := false, pending := false) else old(At(i))
    {
      if 0 <= index < particleCount {
        active[index] := false;
        pending[index] := false;
      }
    }

    /** `getActiveCount`: counts the whole column, which the invariant makes equal to
        the number of active slots in use. */
    method GetActiveCount() returns (n: nat)
      requires Valid()
      ensures n == CountTrue(active[..])
      ensures n > 0 <==> exists i :: 0 <= i < particleCount && active[i]
    {
      n := CountFlagged(active);
      CountPositive(active[..], particleCount);
    }

    /** `getPendingCount` */
    method GetPendingCount() returns (n: nat)
      requires Valid()
      ensures n == CountTrue(pending[..])
      ensures n > 0 <==> exists i :: 0 <= i < particleCount && pending[i]
    {
      n := CountFlagged(pending);
      CountPositive(pending[..], particleCount);
    }
  }
}
