# ParticlizeEffect particle core, modelled in Dafny

ParticlizeEffect turns a captured picture of a Compose view into thousands of
particles. It then animates them: they blow apart ("disintegration") or fly in
and settle on their pixels ("assembly"). This project models the simulation
core of the library and proves properties of it:

- **Values.** The 2-D vector (`Vectors`), the configurations (`Config`), the
  bitmap (`Pixels`) and the Kotlin math the code calls (`Numeric`, `Oracles`).
- **The particle store.** `ParticleStorage` is a structure of arrays, one per
  property, with a fill cursor and active/pending flags (`Storage`). The
  object form `Particle` is modelled in `Particles`.
- **Sampling.** The content bitmap is sampled on a grid into particles
  (`Sampling`).
- **Emission.** The emission controller (`EmissionControl`) assigns each
  particle its release delay, either at once (`InstantEmission`) or by a
  spatial pattern (`PatternedEmission`).
- **Clocks and timing.** The animation controller keeps the clock, the
  progress, the easing, the repeats and the per-particle timing (`Animation`).
- **Physics.**
  - The shared engine (`Physics`) integrates forces and adds noise.
  - The two engine variants are `DisintegrationEngine` and `AssemblyEngine`.
  - The two behaviours that drive a whole store frame by frame are
    `DisintegrationBehavior` and `AssemblyBehavior`. The disintegration
    behaviour also handles the content's boundaries.
- **The particle system.** `System` generates particles from a bitmap and
  advances them once per frame.
- **The controller.** `Controller` is the lifecycle around one effect: start,
  capture, run, destroy.

Kotlin `Float` is modelled as `real`. Kotlin `Int` and `Long` are modelled as
`int`. The square root, sine, cosine, arc tangent, power and random draws are
function values in an `Env` record. Their validity predicates state the
properties the proofs use (a root is non-negative and squares back; sine and
cosine lie in [-1, 1] and satisfy sin² + cos² = 1; random draws lie in
[0, 1)). Each random call site draws from its own channel. Clock readings
(`System.currentTimeMillis()`) are `int` parameters.

Classes whose fields the source updates in place are Dafny classes. Their
methods state the new state exactly, usually as a pure function of the old
state; lemmas about those functions carry the properties. The exception is
the frame loop of `System`: for one particle the new slot is stated exactly,
but across the loop only the fields a particle keeps and its flags are
stated (see "Left out"). The store's
columns are `array`s, and loops over them are `while` loops with invariants.

Several source files do not compile as given. The model follows the fields
each file actually reads, as explicit parameters:

- `AssemblyConfig` and `DisintegrationConfig` are each declared twice.
- `EmissionController` reads `randomSizes`, `randomizeDelays` and
  `randomizeColors`, which `EmissionConfig` lacks. They are fields of the
  model's `EmissionConfig`.
- The strategies call `Vector2.random` and assign to `x`/`y` of the immutable
  `Vector2`. The model builds the vector they evidently mean.
- `ParticlizeController` calls `ParticleSystem` constructors that do not match
  its signature. The model passes the configurations the constructor takes.

## Model

| member | source | states |
|---|---|---|
| Vectors.LengthSquared | app/src/main/java/com/binissa/particlizeeffect/particlize/physics/Vector2.kt:23 | the sum of squares under `length()`'s root is never negative |
| Vectors.LengthSquaredZero | app/src/main/java/com/binissa/particlizeeffect/particlize/physics/Vector2.kt:23 | the squared length is 0 exactly for the zero vector |
| Vectors.PlusMinusCancel | app/src/main/java/com/binissa/particlizeeffect/particlize/physics/Vector2.kt:18-19 | `minus` undoes `plus` |
| Vectors.PlusCommutes | app/src/main/java/com/binissa/particlizeeffect/particlize/physics/Vector2.kt:18 | `plus` is commutative |
| Vectors.ZeroIsIdentity | app/src/main/java/com/binissa/particlizeeffect/particlize/physics/Vector2.kt:18-30 | `ZERO` is the identity of `plus` on both sides |
| Vectors.ScaleByOne | app/src/main/java/com/binissa/particlizeeffect/particlize/physics/Vector2.kt:20-21 | multiplying or dividing by 1 changes nothing |
| Vectors.TimesDistributes | app/src/main/java/com/binissa/particlizeeffect/particlize/physics/Vector2.kt:18-20 | `times` distributes over `plus` |
| Vectors.LengthNonNegative | app/src/main/java/com/binissa/particlizeeffect/particlize/physics/Vector2.kt:23 | `length()` is never negative |
| Vectors.NormalizedOfZero | app/src/main/java/com/binissa/particlizeeffect/particlize/physics/Vector2.kt:24-30 | the zero vector has length 0 and `normalized()` maps it to `ZERO` instead of dividing by zero |
| Vectors.NormalizedIsUnit | app/src/main/java/com/binissa/particlizeeffect/particlize/physics/Vector2.kt:24-27 | every non-zero vector normalises to a vector of length exactly 1 |
| Particles.AdjustedProgress | app/src/main/java/com/binissa/particlizeeffect/particlize/particle/Particle.kt:78 | the particle's own progress lies in [0, 1]; it is 0 exactly until the animation passes the delay, 1 exactly from a full unit after it, and follows the animation in between |
| Particles.AlphaAt | app/src/main/java/com/binissa/particlizeeffect/particlize/particle/Particle.kt:80-93 | alpha lies in [0, 1]; disintegration is transparent exactly at full progress and opaque exactly at none; assembly the reverse |
| Particles.ScaleAt | app/src/main/java/com/binissa/particlizeeffect/particlize/particle/Particle.kt:80-93 | scale lies in [0.5, 1]; disintegration shrinks from 1 to 0.5, assembly grows from 0.5 to 1, with both ends reached exactly at progress 0 and 1 |
| Particles.SpinAt | app/src/main/java/com/binissa/particlizeeffect/particlize/particle/Particle.kt:85-92 | one update turns by at most half a turn: clockwise for disintegration, counter-clockwise for assembly, and not at all at progress 0 |
| Particles.LookIsMonotone | app/src/main/java/com/binissa/particlizeeffect/particlize/particle/Particle.kt:76-94 | as the animation advances, a disintegrating particle never gets more opaque or larger and an assembling one never less |
| Particles.FadedExactly | app/src/main/java/com/binissa/particlizeeffect/particlize/particle/Particle.kt:96-99 | the particle is switched off exactly when disintegration is a full unit past its delay, or assembly has not yet reached its delay |
| Particles.Particle.constructor | app/src/main/java/com/binissa/particlizeeffect/particlize/particle/Particle.kt:11-46 | every property is the argument passed or its declared default: no acceleration, alpha 1, scale 1, no rotation, lifetime 1, mass 1, active |
| Particles.Particle.UpdatePhysics | app/src/main/java/com/binissa/particlizeeffect/particlize/particle/Particle.kt:51-63 | semi-implicit Euler: velocity gains acceleration·dt and is damped by friction, position moves by the new velocity·dt, and the acceleration is consumed |
| Particles.Particle.ApplyForce | app/src/main/java/com/binissa/particlizeeffect/particlize/particle/Particle.kt:68-71 | the acceleration gains the force divided by the mass, with the mass clamped to at least 0.001 |
| Particles.Particle.UpdateVisuals | app/src/main/java/com/binissa/particlizeeffect/particlize/particle/Particle.kt:76-100 | alpha, scale and rotation follow the adjusted progress through AlphaAt, ScaleAt and SpinAt; the particle stays active exactly when it was and its alpha is still positive |
| Storage.Created | app/src/main/java/com/binissa/particlizeeffect/particlize/particle/ParticleStorage.kt:48-61 | a created slot rests on its pixel, with zero velocity, full alpha, scale 1, no rotation and the given colour, size and shape; its flags and delay are kept |
| Storage.IndicesWhereExact | app/src/main/java/com/binissa/particlizeeffect/particlize/particle/ParticleStorage.kt:66-72 | the index list holds exactly the flagged indices below the cursor, in strictly ascending order |
| Storage.CountOfPrefix | app/src/main/java/com/binissa/particlizeeffect/particlize/particle/ParticleStorage.kt:66-72 | the index list is as long as the number of flags set below the cursor |
| Storage.CountIgnoresClearTail | app/src/main/java/com/binissa/particlizeeffect/particlize/particle/ParticleStorage.kt:88-90 | with every flag clear from the cursor on, counting the whole column equals counting the slots in use |
| Storage.CountMatchesIndices | app/src/main/java/com/binissa/particlizeeffect/particlize/particle/ParticleStorage.kt:66-90 | `getActiveCount` equals the length of `getActiveParticleIndices`, and the same for pending, when every flag from the cursor on is clear |
| Storage.CountPositive | app/src/main/java/com/binissa/particlizeeffect/particlize/particle/ParticleStorage.kt:88-90 | the count is positive exactly when some slot in use is flagged |
| Storage.SelectFlagged | app/src/main/java/com/binissa/particlizeeffect/particlize/particle/ParticleStorage.kt:67 | the filtering loop returns the ascending list of flagged indices below the cursor |
| Storage.CountFlagged | app/src/main/java/com/binissa/particlizeeffect/particlize/particle/ParticleStorage.kt:88 | the counting loop returns the number of set flags in the whole column |
| Storage.ParticleStorage.Slots | app/src/main/java/com/binissa/particlizeeffect/particlize/particle/ParticleStorage.kt:8-26 | the store seen as one slot record per index, as many as the capacity |
| Storage.ParticleStorage.constructor | app/src/main/java/com/binissa/particlizeeffect/particlize/particle/ParticleStorage.kt:6-29 | the store has the given capacity and is empty; the invariant holds: every column is as long as the capacity, the columns are distinct arrays, and no flag is set |
| Storage.ParticleStorage.Reset | app/src/main/java/com/binissa/particlizeeffect/particlize/particle/ParticleStorage.kt:31-35 | the cursor is 0 and every flag in the whole capacity is cleared; every other column keeps its contents |
| Storage.ParticleStorage.PlaceSlot | app/src/main/java/com/binissa/particlizeeffect/particlize/particle/ParticleStorage.kt:48-53 | only the chosen slot changes: its position and original position become the pixel and its velocity becomes zero |
| Storage.ParticleStorage.StyleSlot | app/src/main/java/com/binissa/particlizeeffect/particlize/particle/ParticleStorage.kt:55-61 | only the chosen slot changes: its colour, size and shape are set, with full alpha, scale 1 and no rotation |
| Storage.ParticleStorage.SetMotion | app/src/main/java/com/binissa/particlizeeffect/particlize/particle/ParticleStorage.kt:8-13 | only the position and velocity of the chosen slot change |
| Storage.ParticleStorage.SetLook | app/src/main/java/com/binissa/particlizeeffect/particlize/particle/ParticleStorage.kt:18-20 | only the alpha, scale and rotation of the chosen slot change |
| Storage.ParticleStorage.CreateParticle | app/src/main/java/com/binissa/particlizeeffect/particlize/particle/ParticleStorage.kt:37-64 | a full store returns -1 and is unchanged; otherwise the slot at the cursor becomes Created and its index is returned, the cursor advances by one, and every other slot is unchanged |
| Storage.ParticleStorage.GetActiveParticleIndices | app/src/main/java/com/binissa/particlizeeffect/particlize/particle/ParticleStorage.kt:66-68 | the result holds exactly the active slots in use, strictly ascending, as many as `getActiveCount` |
| Storage.ParticleStorage.GetPendingParticleIndices | app/src/main/java/com/binissa/particlizeeffect/particlize/particle/ParticleStorage.kt:70-72 | the result holds exactly the pending slots in use, strictly ascending, as many as `getPendingCount` |
| Storage.ParticleStorage.ActivateParticle | app/src/main/java/com/binissa/particlizeeffect/particlize/particle/ParticleStorage.kt:74-79 | a slot in use becomes active and no longer pending; any other index changes nothing |
| Storage.ParticleStorage.DeactivateParticle | app/src/main/java/com/binissa/particlizeeffect/particlize/particle/ParticleStorage.kt:81-86 | a slot in use loses both flags; any other index changes nothing |
| Storage.ParticleStorage.GetActiveCount | app/src/main/java/com/binissa/particlizeeffect/particlize/particle/ParticleStorage.kt:88 | the number of set active flags, positive exactly when some slot in use is active |
| Storage.ParticleStorage.GetPendingCount | app/src/main/java/com/binissa/particlizeeffect/particlize/particle/ParticleStorage.kt:90 | the number of set pending flags, positive exactly when some slot in use is pending |
| Config.ShapeCode | app/src/main/java/com/binissa/particlizeeffect/particlize/particle/ParticleSystem.kt:196-200 | the store's shape code is 0 for circles, 1 for squares and 2 for custom shapes, and distinct shapes get distinct codes |
| Sampling.StepSize | app/src/main/java/com/binissa/particlizeeffect/particlize/particle/ParticleSystem.kt:174-176 | the sampling step is at least 1 and at most `Int.MAX_VALUE`; a zero count saturates it to `Int.MAX_VALUE` and a negative count makes it 1 |
| Sampling.StepSizeFitsArea | app/src/main/java/com/binissa/particlizeeffect/particlize/particle/ParticleSystem.kt:174-176 | for a count within the pixel area, step · step · count never exceeds width · height |
| Sampling.StepWithinSpacing | app/src/main/java/com/binissa/particlizeeffect/particlize/particle/ParticleSystem.kt:175-176 | the step never exceeds the spacing 1 / density it is truncated from |
| Sampling.KeptAppend | app/src/main/java/com/binissa/particlizeeffect/particlize/particle/ParticleSystem.kt:181-204 | keeping the visible pixels of two visit lists one after the other is keeping them of the joined list |
| Sampling.KeptMembers | app/src/main/java/com/binissa/particlizeeffect/particlize/particle/ParticleSystem.kt:186-190 | a pixel becomes a particle exactly when the loops visit it and its alpha exceeds 0.1 |
| Sampling.KeptNoLonger | app/src/main/java/com/binissa/particlizeeffect/particlize/particle/ParticleSystem.kt:181-204 | no more particles are created than pixels visited |
| Sampling.KeptAllVisible | app/src/main/java/com/binissa/particlizeeffect/particlize/particle/ParticleSystem.kt:189-190 | on a fully opaque bitmap every visited pixel becomes a particle |
| Sampling.ColumnMembers | app/src/main/java/com/binissa/particlizeeffect/particlize/particle/ParticleSystem.kt:182 | the inner loop visits exactly the rows from its start, every step-th one, below the height |
| Sampling.GridMembers | app/src/main/java/com/binissa/particlizeeffect/particlize/particle/ParticleSystem.kt:181-182 | the nested loops visit exactly the in-bounds pixels whose coordinates are multiples of the step |
| Sampling.ColumnAscending | app/src/main/java/com/binissa/particlizeeffect/particlize/particle/ParticleSystem.kt:182 | a column is visited in strictly increasing row order |
| Sampling.GridAscending | app/src/main/java/com/binissa/particlizeeffect/particlize/particle/ParticleSystem.kt:181-182 | the grid is visited column by column in strictly increasing order, so no pixel is visited twice |
| Sampling.KeptAscending | app/src/main/java/com/binissa/particlizeeffect/particlize/particle/ParticleSystem.kt:190 | the particles keep the visiting order |
| Sampling.StridesBounds | app/src/main/java/com/binissa/particlizeeffect/particlize/particle/ParticleSystem.kt:181-182 | a loop from start to bound by step runs ceil((bound - start) / step) times |
| Sampling.ColumnLength | app/src/main/java/com/binissa/particlizeeffect/particlize/particle/ParticleSystem.kt:182 | a column visits one pixel per stride of the inner loop |
| Sampling.GridLength | app/src/main/java/com/binissa/particlizeeffect/particlize/particle/ParticleSystem.kt:181-182 | the grid visits (outer strides) · (inner strides) pixels |
| Sampling.GridCoversRequest | app/src/main/java/com/binissa/particlizeeffect/particlize/particle/ParticleSystem.kt:174-182 | when the requested count fits in the bitmap, the grid the step yields visits at least that many pixels |
| Patterns.MaxDistancePositive | app/src/main/java/com/binissa/particlizeeffect/particlize/emission/EmissionController.kt:185-188 | the centre-to-corner distance is positive, so the radial patterns never divide by zero |
| Patterns.DistanceWithinMax | app/src/main/java/com/binissa/particlizeeffect/particlize/emission/EmissionController.kt:179-188 | no pixel of the image is farther from the centre than the corners, so the radial ratio lies in [0, 1] |
| Patterns.PatternValueInUnitRange | app/src/main/java/com/binissa/particlizeeffect/particlize/emission/EmissionController.kt:174-200 | inside the image every raw pattern value, for all six patterns, lies in [0, 1] |
| Patterns.EmissionDelayOrder | app/src/main/java/com/binissa/particlizeeffect/particlize/emission/EmissionController.kt:138-141 | delays lie in [0, durationFactor] and follow the pattern order: forward for disintegration, reversed for assembly |
| Patterns.DelayForward | app/src/main/java/com/binissa/particlizeeffect/particlize/emission/EmissionController.kt:138-141 | for disintegration a larger pattern value never gets an earlier delay |
| Patterns.DelayBackward | app/src/main/java/com/binissa/particlizeeffect/particlize/emission/EmissionController.kt:138-141 | for assembly a larger pattern value never gets a later delay |
| Patterns.NormalizedValue | app/src/main/java/com/binissa/particlizeeffect/particlize/emission/EmissionController.kt:207-213 | with a positive range the value is placed between the extremes (r · range == value - min); otherwise the raw value is kept |
| Patterns.NormalizedInUnitRange | app/src/main/java/com/binissa/particlizeeffect/particlize/emission/EmissionController.kt:207-213 | a value between the extremes normalises into [0, 1] |
| Patterns.NormalizedMonotone | app/src/main/java/com/binissa/particlizeeffect/particlize/emission/EmissionController.kt:207-213 | normalisation keeps the order of the raw values |
| EmissionControl.Brightened | app/src/main/java/com/binissa/particlizeeffect/particlize/emission/EmissionController.kt:47-54 | red, green and blue move by the same shift and stay in [0, 1]; each channel that started in [0, 1] moves by at most the shift; alpha is kept |
| EmissionControl.VariedSize | app/src/main/java/com/binissa/particlizeeffect/particlize/emission/EmissionController.kt:26-30 | without the flag the size is kept; with it a non-negative size ends within 0.6 to 1.4 times itself |
| EmissionControl.VariedAlpha | app/src/main/java/com/binissa/particlizeeffect/particlize/emission/EmissionController.kt:33-37 | without the flag the alpha is kept; with it the alpha is redrawn in [0.6, 1) |
| EmissionControl.VariedColor | app/src/main/java/com/binissa/particlizeeffect/particlize/emission/EmissionController.kt:40-55 | without the flag the colour is kept; with it every channel stays in [0, 1], a channel that started in [0, 1] moves by at most 0.1, and alpha is kept |
| EmissionControl.VariedRotation | app/src/main/java/com/binissa/particlizeeffect/particlize/emission/EmissionController.kt:58-61 | without the flag the rotation is kept; with it the rotation is redrawn in [0, 360) |
| EmissionControl.VariationBounds | app/src/main/java/com/binissa/particlizeeffect/particlize/emission/EmissionController.kt:28-29 | a size scaled by 0.6 + 0.8u, with u in [0, 1), stays within 0.6 to 1.4 times itself |
| EmissionControl.LaunchSpeed | app/src/main/java/com/binissa/particlizeeffect/particlize/emission/EmissionController.kt:76-77 | the launch speed lies between 0.5 and 1.5 times a non-negative base velocity |
| EmissionControl.SpeedBounds | app/src/main/java/com/binissa/particlizeeffect/particlize/emission/EmissionController.kt:76-77 | a variation in [0.5, 1.5] keeps the speed within 0.5 to 1.5 times the base |
| EmissionControl.LaunchVelocityBounds | app/src/main/java/com/binissa/particlizeeffect/particlize/emission/EmissionController.kt:73-81 | the launch velocity's length is exactly the launch speed, and each component is at most 1.5 times the base velocity in magnitude |
| EmissionControl.RawPatternValues | app/src/main/java/com/binissa/particlizeeffect/particlize/emission/EmissionController.kt:170-201 | one raw pattern value per particle in use |
| EmissionControl.ExtremesBracketValues | app/src/main/java/com/binissa/particlizeeffect/particlize/emission/EmissionController.kt:166-205 | every raw value lies between the running minimum and maximum the loop computes |
| EmissionControl.NormalizedPatternValues | app/src/main/java/com/binissa/particlizeeffect/particlize/emission/EmissionController.kt:159-216 | one normalised value per particle in use |
| EmissionControl.NormalizedPatternValuesInUnitRange | app/src/main/java/com/binissa/particlizeeffect/particlize/emission/EmissionController.kt:159-216 | a particle whose original position lies inside the image gets a normalised value in [0, 1] |
| EmissionControl.NormalizedPatternValuesOrder | app/src/main/java/com/binissa/particlizeeffect/particlize/emission/EmissionController.kt:207-213 | normalisation keeps the particles' order along the pattern |
| EmissionControl.TargetDelay | app/src/main/java/com/binissa/particlizeeffect/particlize/emission/EmissionController.kt:128-141 | a normalised value in [0, 1] gives a delay in [0, durationFactor]; without jitter the delay is the pattern's emission delay |
| EmissionControl.DelayWithinFactor | app/src/main/java/com/binissa/particlizeeffect/particlize/emission/EmissionController.kt:138-141 | without jitter, a value in [0, 1] gives a delay in [0, durationFactor] |
| EmissionControl.Scheduled | app/src/main/java/com/binissa/particlizeeffect/particlize/emission/EmissionController.kt:143-152 | a scheduled slot is either active or pending, never both; it is pending exactly when its delay is positive and it is not among the first 5%; nothing else in the slot changes |
| EmissionControl.ScheduleFollowsPattern | app/src/main/java/com/binissa/particlizeeffect/particlize/emission/EmissionController.kt:121-153 | without jitter, particles inside the image get delays in [0, durationFactor], released in pattern order for disintegration and in reverse order for assembly |
| EmissionControl.ReleaseByEnd | app/src/main/java/com/binissa/particlizeeffect/particlize/emission/EmissionController.kt:91-99 | once `shouldActivateParticle` holds it keeps holding as the progress grows, and with a duration factor of at most 1 every scheduled particle is released by progress 1 |
| EmissionControl.EmissionController.constructor | app/src/main/java/com/binissa/particlizeeffect/particlize/emission/EmissionController.kt:15-17 | the controller keeps the configuration it is given |
| EmissionControl.EmissionController.ApplyRandomVisualProperties | app/src/main/java/com/binissa/particlizeeffect/particlize/emission/EmissionController.kt:21-62 | only the chosen slot changes, to its varied size, alpha, colour and rotation |
| EmissionControl.EmissionController.VarySize | app/src/main/java/com/binissa/particlizeeffect/particlize/emission/EmissionController.kt:26-30 | only the chosen slot's size changes, to VariedSize |
| EmissionControl.EmissionController.VaryAlpha | app/src/main/java/com/binissa/particlizeeffect/particlize/emission/EmissionController.kt:33-37 | only the chosen slot's alpha changes, to VariedAlpha |
| EmissionControl.EmissionController.VaryColor | app/src/main/java/com/binissa/particlizeeffect/particlize/emission/EmissionController.kt:40-55 | only the chosen slot's colour changes, to VariedColor |
| EmissionControl.EmissionController.VaryRotation | app/src/main/java/com/binissa/particlizeeffect/particlize/emission/EmissionController.kt:58-61 | only the chosen slot's rotation changes, to VariedRotation |
| EmissionControl.EmissionController.InitializeVelocities | app/src/main/java/com/binissa/particlizeeffect/particlize/emission/EmissionController.kt:67-86 | only the chosen slot's velocity changes, to the launch velocity |
| EmissionControl.EmissionController.CalculatePatternValues | app/src/main/java/com/binissa/particlizeeffect/particlize/emission/EmissionController.kt:159-216 | a fresh array holding the normalised pattern value of every particle in use |
| EmissionControl.EmissionController.RawValues | app/src/main/java/com/binissa/particlizeeffect/particlize/emission/EmissionController.kt:165-205 | the first loop yields the raw values with their least and greatest |
| EmissionControl.EmissionController.Normalize | app/src/main/java/com/binissa/particlizeeffect/particlize/emission/EmissionController.kt:208-213 | the second loop places every value between the extremes |
| EmissionControl.EmissionController.CalculateDelays | app/src/main/java/com/binissa/particlizeeffect/particlize/emission/EmissionController.kt:104-154 | instant emission makes every particle in use active with no delay; otherwise each particle in use is Scheduled with its target delay and the first 5% forced active; slots beyond the cursor are untouched |
| EmissionControl.EmissionController.ReleaseAll | app/src/main/java/com/binissa/particlizeeffect/particlize/emission/EmissionController.kt:112-119 | every particle in use is active, not pending, with delay 0 |
| EmissionControl.EmissionController.AssignDelays | app/src/main/java/com/binissa/particlizeeffect/particlize/emission/EmissionController.kt:127-153 | every particle in use gets its target delay and is Scheduled; slots beyond the cursor are untouched |
| EmissionControl.EmissionController.PlanDelay | app/src/main/java/com/binissa/particlizeeffect/particlize/emission/EmissionController.kt:128-141 | the delay of one particle is its TargetDelay |
| EmissionControl.EmissionController.WriteSchedule | app/src/main/java/com/binissa/particlizeeffect/particlize/emission/EmissionController.kt:138-152 | only the chosen slot changes, to Scheduled with the given delay |
| InstantEmission.StartNearPixel | app/src/main/java/com/binissa/particlizeeffect/particlize/emission/InstantEmissionStrategy.kt:43-55 | a disintegrating particle starts on its pixel; an assembling one starts in the 200 × 200 box centred on it, right and lower edges excluded |
| InstantEmission.GenerateParticles | app/src/main/java/com/binissa/particlizeeffect/particlize/emission/InstantEmissionStrategy.kt:18-76 | one new particle per visible pixel of the sampling grid, in visiting order, each with its pixel's colour, the configured shape and friction, delay 0, a random size of 0.5 to 1.5 times the configured one, and the effect's start position and velocity |
| InstantEmission.EmitColumn | app/src/main/java/com/binissa/particlizeeffect/particlize/emission/InstantEmissionStrategy.kt:36-72 | the inner loop appends the particles of one column's visible pixels, in order, keeping the ones already emitted |
| PatternedEmission.ExtremesBracket | app/src/main/java/com/binissa/particlizeeffect/particlize/emission/PatternedEmissionStrategy.kt:43-54 | every recorded pattern value lies between the running minimum and maximum, which start from `Float.MAX_VALUE` and `Float.MIN_VALUE` |
| PatternedEmission.NormalizedAsWritten | app/src/main/java/com/binissa/particlizeeffect/particlize/emission/PatternedEmissionStrategy.kt:57-69 | the unguarded quotient is undefined exactly when the range is 0, and otherwise places the value between the extremes |
| PatternedEmission.SinglePixelRangeIsZero | app/src/main/java/com/binissa/particlizeeffect/particlize/emission/PatternedEmissionStrategy.kt:57-69 | on a one-pixel opaque bitmap emitted right to left both extremes are 1, so the range is 0 and the division is undefined; the guarded normalisation gives 1 |
| PatternedEmission.SinglePixelGrid | app/src/main/java/com/binissa/particlizeeffect/particlize/emission/PatternedEmissionStrategy.kt:46-67 | on a 1 × 1 bitmap the grid is the single pixel, which an opaque bitmap keeps |
| PatternedEmission.CorrectionAgreesWhereDefined | app/src/main/java/com/binissa/particlizeeffect/particlize/emission/PatternedEmissionStrategy.kt:57-69 | wherever the unguarded division is defined, the guarded normalisation gives the same value |
| PatternedEmission.DelaysFollowPattern | app/src/main/java/com/binissa/particlizeeffect/particlize/emission/PatternedEmissionStrategy.kt:46-75 | every pixel of the grid gets a delay in [0, durationFactor], and a pixel no later in the pattern is released no later when disintegrating and no earlier when assembling |
| PatternedEmission.StartNearPixel | app/src/main/java/com/binissa/particlizeeffect/particlize/emission/PatternedEmissionStrategy.kt:77-91 | an assembling particle starts at most 200 pixels from its pixel on each axis; a disintegrating one on the pixel |
| PatternedEmission.PatternValuesRecorded | app/src/main/java/com/binissa/particlizeeffect/particlize/emission/PatternedEmissionStrategy.kt:46-54 | the first pass records exactly the visited pixels, each with its own pattern value |
| PatternedEmission.GenerateParticles | app/src/main/java/com/binissa/particlizeeffect/particlize/emission/PatternedEmissionStrategy.kt:24-111 | one new particle per visible pixel of the grid, in visiting order, each with its delay from its normalised pattern value and the effect's start position and velocity; the normalisation is the guarded one, the correction of the first Findings row (the source divides without a guard) |
| PatternedEmission.EmittedDelaysFollowPattern | app/src/main/java/com/binissa/particlizeeffect/particlize/emission/PatternedEmissionStrategy.kt:67-75 | every emitted delay lies in [0, durationFactor], ordered along the pattern: forward when disintegrating, backward when assembling |
| PatternedEmission.EmitAll | app/src/main/java/com/binissa/particlizeeffect/particlize/emission/PatternedEmissionStrategy.kt:60-108 | the second pass emits a particle for every visible grid pixel, in order |
| PatternedEmission.MeasurePattern | app/src/main/java/com/binissa/particlizeeffect/particlize/emission/PatternedEmissionStrategy.kt:42-54 | the first pass yields the map of the grid's pattern values and their least and greatest |
| PatternedEmission.MeasureColumn | app/src/main/java/com/binissa/particlizeeffect/particlize/emission/PatternedEmissionStrategy.kt:47-53 | the first pass's inner loop extends the map and the extremes by one column |
| PatternedEmission.EmitPixel | app/src/main/java/com/binissa/particlizeeffect/particlize/emission/PatternedEmissionStrategy.kt:68-103 | the new particle is exactly the one the strategy builds for that pixel and position in the output, with its delay from the guarded normalisation of the first Findings row (the source divides without a guard) |
| PatternedEmission.EmitColumn | app/src/main/java/com/binissa/particlizeeffect/particlize/emission/PatternedEmissionStrategy.kt:61-107 | the second pass's inner loop appends one column's particles, in order, keeping the ones already emitted |
| PatternedEmission.EmitPoint | app/src/main/java/com/binissa/particlizeeffect/particlize/emission/PatternedEmissionStrategy.kt:63-106 | one pixel adds one particle when visible and none otherwise |
| Animation.RawProgressAt | app/src/main/java/com/binissa/particlizeeffect/particlize/Animation/AnimationController.kt:129-130 | the raw progress is a fraction in [0, 1]; for a positive duration and 0 <= elapsed <= duration it is exactly elapsed / duration, and 0 for a non-positive elapsed time |
| Animation.RawProgressMonotone | app/src/main/java/com/binissa/particlizeeffect/particlize/Animation/AnimationController.kt:129-130 | for a positive duration the raw progress never decreases as the elapsed time grows |
| Animation.TransitionsKeepCoherent | app/src/main/java/com/binissa/particlizeeffect/particlize/Animation/AnimationController.kt:51-162 | start, pause, resume, reset and update all keep the clock coherent: paused only while running, raw progress in [0, 1] |
| Animation.UpdateReports | app/src/main/java/com/binissa/particlizeeffect/particlize/Animation/AnimationController.kt:96-142 | update returns false and changes nothing on a stopped clock, returns true and changes nothing on a paused one, and on a live clock returns false exactly when the duration is over with no repeat left; the result always equals the new isRunning |
| Animation.UpdateRestartsOrAdvances | app/src/main/java/com/binissa/particlizeeffect/particlize/Animation/AnimationController.kt:101-141 | a live update records the frame time; a completed repeating clock restarts so that its elapsed time is 0 and keeps its progress; an unfinished one sets raw progress to elapsed/duration and eased progress to the easing of it |
| Animation.RepeatCountStep | app/src/main/java/com/binissa/particlizeeffect/particlize/Animation/AnimationController.kt:111-115 | the repeat count stays or drops by exactly one from a positive value; an infinite (negative) count never changes and a finite one never goes negative |
| Animation.PauseFreezesElapsed | app/src/main/java/com/binissa/particlizeeffect/particlize/Animation/AnimationController.kt:73-91 | pausing at t1 and resuming at t2 adds t2 - t1 to the paused total, so the effective elapsed time at t2 equals the one at t1 |
| Animation.PauseResumeGuards | app/src/main/java/com/binissa/particlizeeffect/particlize/Animation/AnimationController.kt:74-85 | pausing twice is pausing once; resuming an unpaused clock and pausing or resuming a stopped one change nothing |
| Animation.Reports | app/src/main/java/com/binissa/particlizeeffect/particlize/Animation/AnimationController.kt:96-142 | a run of updates yields one report per update |
| Animation.InfiniteRepeatNeverStops | app/src/main/java/com/binissa/particlizeeffect/particlize/Animation/AnimationController.kt:109-119 | with repeatCount -1 a running clock reports true on every update of any sequence, stays running and keeps its count |
| Animation.StoppedStaysStopped | app/src/main/java/com/binissa/particlizeeffect/particlize/Animation/AnimationController.kt:97 | a stopped clock reports false on every update and is left unchanged |
| Animation.FiniteRepeatsCounted | app/src/main/java/com/binissa/particlizeeffect/particlize/Animation/AnimationController.kt:109-126 | with a finite repeat count n the completions of any run of updates equal the repeats used up plus one if the run stopped the clock, so at most n + 1 completions happen |
| Animation.TimeOffsetBounds | app/src/main/java/com/binissa/particlizeeffect/particlize/Animation/AnimationController.kt:169-176 | a particle's timing offset lies in [-timingVariation, timingVariation] and is 0 when timings are not randomised |
| Animation.FactorsInRange | app/src/main/java/com/binissa/particlizeeffect/particlize/Animation/AnimationController.kt:191-246 | the drawn factors lie in their documented ranges: alpha [0.8, 1.2), fade [0.9, 1.1), scale [0.85, 1.15), phase [0, 2 pi) |
| Animation.ParticleAlphaOf | app/src/main/java/com/binissa/particlizeeffect/particlize/Animation/AnimationController.kt:206-212 | a particle's alpha is always clamped into [0, 1] |
| Animation.ParticleAlphaMonotone | app/src/main/java/com/binissa/particlizeeffect/particlize/Animation/AnimationController.kt:204-212 | with positive factors a disintegrating particle's alpha never rises as its progress grows and an assembling particle's alpha never falls |
| Animation.ParticleScaleBounds | app/src/main/java/com/binissa/particlizeeffect/particlize/Animation/AnimationController.kt:228-236 | for progress in [0, 1] the disintegration scale lies between 70% and 100% of the factor and the assembly scale between 50% and 100%, so with the drawn factor both stay below 1.15 |
| Animation.GetOrPut | app/src/main/java/com/binissa/particlizeeffect/particlize/Animation/AnimationController.kt:169 | getOrPut leaves a present key's value alone and inserts the default for a missing key; afterwards the key is present |
| Animation.AnimationController.constructor | app/src/main/java/com/binissa/particlizeeffect/particlize/Animation/AnimationController.kt:15-43 | a new controller is stopped, unpaused, at zero progress with zero times, keeps the config's repeat count and has no per-particle draws |
| Animation.AnimationController.Start | app/src/main/java/com/binissa/particlizeeffect/particlize/Animation/AnimationController.kt:51-68 | start sets the start and last-update times to now, runs, unpauses, zeroes progress and paused time, and clears all six per-particle maps |
| Animation.AnimationController.ForgetDraws | app/src/main/java/com/binissa/particlizeeffect/particlize/Animation/AnimationController.kt:62-67 | all six per-particle maps are empty afterwards |
| Animation.AnimationController.Pause | app/src/main/java/com/binissa/particlizeeffect/particlize/Animation/AnimationController.kt:73-79 | the new clock is the pause transition of the old one, which only a running unpaused clock takes |
| Animation.AnimationController.Resume | app/src/main/java/com/binissa/particlizeeffect/particlize/Animation/AnimationController.kt:84-91 | the new clock is the resume transition of the old one, which adds the pause length to the paused total |
| Animation.AnimationController.Update | app/src/main/java/com/binissa/particlizeeffect/particlize/Animation/AnimationController.kt:96-142 | the new clock and the returned flag are the update transition of the old clock, and the flag equals isRunning afterwards |
| Animation.AnimationController.DeltaTime | app/src/main/java/com/binissa/particlizeeffect/particlize/Animation/AnimationController.kt:147-149 | the frame time is at most 0.05 s and is the gap since the last update in seconds whenever that gap is not above 0.05 s |
| Animation.AnimationController.Reset | app/src/main/java/com/binissa/particlizeeffect/particlize/Animation/AnimationController.kt:154-162 | reset stops and unpauses the clock and zeroes both progresses, keeping the timing fields and every per-particle draw |
| Animation.AnimationController.GetParticleProgress | app/src/main/java/com/binissa/particlizeeffect/particlize/Animation/AnimationController.kt:167-180 | the particle's offset is drawn on first use and kept afterwards; the result is the eased progress plus that offset clamped into [0, 1] |
| Animation.AnimationController.GetParticleAlpha | app/src/main/java/com/binissa/particlizeeffect/particlize/Animation/AnimationController.kt:186-213 | the offset, alpha, fade-in and fade-out factors are drawn once per particle and kept; the result is the particle alpha formula at the particle's progress, in [0, 1] |
| Animation.AnimationController.GetParticleScale | app/src/main/java/com/binissa/particlizeeffect/particlize/Animation/AnimationController.kt:219-237 | the offset and scale factor are drawn once per particle and kept; the result is the particle scale formula at the particle's progress |
| Animation.AnimationController.GetParticleOscillation | app/src/main/java/com/binissa/particlizeeffect/particlize/Animation/AnimationController.kt:243-251 | the phase is drawn once per particle and kept; the result is the sine of raw progress times frequency times 2 pi plus the phase, hence in [-1, 1] |
| Animation.Consult | app/src/main/java/com/binissa/particlizeeffect/particlize/physics/DisintegrationPhysics.kt:103-233 | a behaviour with a controller draws the particle's offset, its phase only when it oscillates and the config adds oscillation, its alpha factors only when alpha is randomised and its scale factor only when scale is randomised, and gets back exactly the corresponding getter values |
| Animation.Guide | app/src/main/java/com/binissa/particlizeeffect/particlize/physics/AssemblyPhysics.kt:100-176 | without a controller a behaviour gets no guidance and nothing changes; with one it consults it as above and leaves its clock untouched |
| Animation.ConsultMotion | app/src/main/java/com/binissa/particlizeeffect/particlize/physics/AssemblyPhysics.kt:100-124 | the progress is the controller's particle progress and the oscillation term is the oscillation times its strength exactly when the behaviour oscillates and the config adds oscillation |
| Animation.ConsultLook | app/src/main/java/com/binissa/particlizeeffect/particlize/physics/AssemblyPhysics.kt:165-176 | alpha is the controller's particle alpha exactly when alpha is randomised and scale the particle scale exactly when scale is randomised; otherwise neither is drawn |
| Physics.Flushed | app/src/main/java/com/binissa/particlizeeffect/particlize/physics/PhysicsEngine.kt:44-46 | a component slower than minVelocity becomes 0 and any other is kept, so the result is 0 or at least minVelocity in magnitude |
| Physics.Integrated | app/src/main/java/com/binissa/particlizeeffect/particlize/physics/PhysicsEngine.kt:27-50 | the new position is the old one advanced by the new velocity times deltaTime, each new velocity component is 0 or at least minVelocity in magnitude, and no other field of the particle changes |
| Physics.RestIsFixed | app/src/main/java/com/binissa/particlizeeffect/particlize/physics/PhysicsEngine.kt:27-50 | a particle at rest under no accumulated force keeps its position and velocity |
| Physics.DampingNeverAccelerates | app/src/main/java/com/binissa/particlizeeffect/particlize/physics/PhysicsEngine.kt:33-46 | with no force and a velocity multiplier times damping factor in [0, 1], no velocity component grows in magnitude |
| Physics.DirectionalForceLength | app/src/main/java/com/binissa/particlizeeffect/particlize/physics/PhysicsEngine.kt:68-73 | the directional force has squared length magnitude squared, so exactly the requested magnitude |
| Physics.Distance | app/src/main/java/com/binissa/particlizeeffect/particlize/physics/PhysicsEngine.kt:91-94 | once the squared distance reaches minDistance squared the distance is positive and squares back to the squared distance |
| Physics.AttractionForceShape | app/src/main/java/com/binissa/particlizeeffect/particlize/physics/PhysicsEngine.kt:86-103 | closer than minDistance there is no pull; otherwise the pull has squared length strength squared along the unit displacement |
| Physics.SpringForceRestores | app/src/main/java/com/binissa/particlizeeffect/particlize/physics/PhysicsEngine.kt:117-130 | at the anchor and at rest the spring force is zero; with positive stiffness and no damping each component pulls back toward the anchor |
| Physics.Noise | app/src/main/java/com/binissa/particlizeeffect/particlize/physics/PhysicsEngine.kt:165-169 | the noise value, the square of a truncated fractional part, lies in [0, 1) |
| Physics.NoisePair | app/src/main/java/com/binissa/particlizeeffect/particlize/physics/PhysicsEngine.kt:144-154 | both turbulence samples, mapped by n * 2 - 1, lie in [-1, 1) |
| Physics.TurbulenceBounded | app/src/main/java/com/binissa/particlizeeffect/particlize/physics/PhysicsEngine.kt:136-160 | disabled turbulence adds no force; enabled, each component is at most the turbulence strength in magnitude |
| Physics.PhysicsEngine.constructor | app/src/main/java/com/binissa/particlizeeffect/particlize/physics/PhysicsEngine.kt:11-17 | the engine keeps its settings and starts with an empty force accumulator |
| Physics.PhysicsEngine.AddForce | app/src/main/java/com/binissa/particlizeeffect/particlize/physics/PhysicsEngine.kt:60-63 | the accumulated force grows by exactly the given components |
| Physics.PhysicsEngine.AddDirectionalForce | app/src/main/java/com/binissa/particlizeeffect/particlize/physics/PhysicsEngine.kt:68-73 | the accumulator grows by the directional force for the angle, converted to radians, and magnitude |
| Physics.PhysicsEngine.AddAttractionForce | app/src/main/java/com/binissa/particlizeeffect/particlize/physics/PhysicsEngine.kt:78-104 | the accumulator grows by the attraction force of the particle's displacement to the target, and by nothing within minDistance |
| Physics.PhysicsEngine.AddSpringForce | app/src/main/java/com/binissa/particlizeeffect/particlize/physics/PhysicsEngine.kt:109-131 | the accumulator grows by the spring force -k x - c v of the particle's slot |
| Physics.PhysicsEngine.AddTurbulence | app/src/main/java/com/binissa/particlizeeffect/particlize/physics/PhysicsEngine.kt:136-160 | the accumulator grows by the turbulence force at the particle's position and the time, which is zero when turbulence is disabled |
| Physics.PhysicsEngine.NewVelocity | app/src/main/java/com/binissa/particlizeeffect/particlize/physics/PhysicsEngine.kt:29-46 | one velocity component is accelerated by the force, scaled by the velocity multiplier and damping, and flushed to 0 below minVelocity |
| Physics.PhysicsEngine.ApplyForces | app/src/main/java/com/binissa/particlizeeffect/particlize/physics/PhysicsEngine.kt:22-55 | only particle index changes, to its integration under the accumulated force; the accumulator is emptied and the storage stays valid |
| DisintegrationEngine.InitialAngleRange | app/src/main/java/com/binissa/particlizeeffect/particlize/physics/DisintegrationPhysicsEngine.kt:32-36 | a particle's explosion angle lies in [angle - variation/2, angle + variation/2) for a positive variation and is the configured angle otherwise |
| DisintegrationEngine.FadeOutAlphaShape | app/src/main/java/com/binissa/particlizeeffect/particlize/physics/DisintegrationPhysicsEngine.kt:54 | alpha starts at 1, stays in [0, 1], never rises as progress grows and is 0 once progress times the fade-out rate reaches 1 |
| DisintegrationEngine.ShrinkScaleFloor | app/src/main/java/com/binissa/particlizeeffect/particlize/physics/DisintegrationPhysicsEngine.kt:55 | scale starts at 1, never drops below 0.1, stays at most 1 and sits at 0.1 once progress times the scale-down factor reaches 0.9 |
| DisintegrationEngine.SpinFactorRange | app/src/main/java/com/binissa/particlizeeffect/particlize/physics/DisintegrationPhysicsEngine.kt:58-60 | the spin factor depends only on the index's last decimal digit and lies between 1 and 1 + 0.9 times the rotation variation |
| DisintegrationEngine.GravityRamp | app/src/main/java/com/binissa/particlizeeffect/particlize/physics/DisintegrationPhysicsEngine.kt:64-66 | gravity is a fifth of its force at progress 0 and all of it at progress 1, and the gravity push has exactly that length |
| DisintegrationEngine.ExplosionFades | app/src/main/java/com/binissa/particlizeeffect/particlize/physics/DisintegrationPhysicsEngine.kt:78-80 | the explosion strength is the full force at progress 0, 0 at the end of the explosion, never rises for a non-negative force and stays positive in between for a positive force |
| DisintegrationEngine.ExplosionWindow | app/src/main/java/com/binissa/particlizeeffect/particlize/physics/DisintegrationPhysicsEngine.kt:74 | from the end of the explosion on, no explosion force is added |
| DisintegrationEngine.RadialForceShape | app/src/main/java/com/binissa/particlizeeffect/particlize/physics/DisintegrationPhysicsEngine.kt:86-101 | the radial push is absent on the original pixel and for directionality 1 or more; otherwise its length is the strength times 1 - directionality and for a non-negative strength it points away from the pixel |
| DisintegrationEngine.RetiredFlags | app/src/main/java/com/binissa/particlizeeffect/particlize/physics/DisintegrationPhysicsEngine.kt:108-110 | a slot in use whose alpha is at most 0.01 ends inactive and not pending; every other slot and every other field is unchanged |
| DisintegrationEngine.FadedOutIsDeactivated | app/src/main/java/com/binissa/particlizeeffect/particlize/physics/DisintegrationPhysicsEngine.kt:54-110 | with a slot in use, the update deactivates it exactly when progress times the fade-out rate is at least 0.99, and otherwise keeps its flags |
| DisintegrationEngine.DisintegrationPhysicsEngine.constructor | app/src/main/java/com/binissa/particlizeeffect/particlize/physics/DisintegrationPhysicsEngine.kt:13-21 | the engine holds 10000 angles all 0, has not drawn them yet, and its integrator is idle with the disintegration settings |
| DisintegrationEngine.DisintegrationPhysicsEngine.InitializeParticleAngles | app/src/main/java/com/binissa/particlizeeffect/particlize/physics/DisintegrationPhysicsEngine.kt:26-40 | the first call sets each angle below the particle count to its drawn angle and keeps the rest; later calls change nothing |
| DisintegrationEngine.DisintegrationPhysicsEngine.Fade | app/src/main/java/com/binissa/particlizeeffect/particlize/physics/DisintegrationPhysicsEngine.kt:53-60 | only slot index changes: its alpha and scale follow progress and its rotation grows by one spin step |
| DisintegrationEngine.DisintegrationPhysicsEngine.Push | app/src/main/java/com/binissa/particlizeeffect/particlize/physics/DisintegrationPhysicsEngine.kt:64-102 | the empty accumulator ends holding gravity plus turbulence at time 5 times progress plus the explosion along the particle's angle, for any progress (negative included) |
| DisintegrationEngine.DisintegrationPhysicsEngine.Explode | app/src/main/java/com/binissa/particlizeeffect/particlize/physics/DisintegrationPhysicsEngine.kt:74-101 | the accumulator grows by the directional push of the fading strength along the particle's angle plus the radial push, for any progress below the explosion's duration |
| DisintegrationEngine.DisintegrationPhysicsEngine.PushAway | app/src/main/java/com/binissa/particlizeeffect/particlize/physics/DisintegrationPhysicsEngine.kt:86-101 | the accumulator grows by the radial force of the particle's offset from its pixel |
| DisintegrationEngine.DisintegrationPhysicsEngine.AddRadialPush | app/src/main/java/com/binissa/particlizeeffect/particlize/physics/DisintegrationPhysicsEngine.kt:92-100 | the accumulator grows by the unit offset times the radial strength when the distance is positive, and by nothing otherwise |
| DisintegrationEngine.DisintegrationPhysicsEngine.Retire | app/src/main/java/com/binissa/particlizeeffect/particlize/physics/DisintegrationPhysicsEngine.kt:107-110 | only slot index can change, and only to the retired form of itself |
| DisintegrationEngine.DisintegrationPhysicsEngine.UpdateParticle | app/src/main/java/com/binissa/particlizeeffect/particlize/physics/DisintegrationPhysicsEngine.kt:42-111 | the angles are drawn on the first call only; slot index becomes its full disintegration step (fade, forces, integration, retirement) and every other slot is unchanged |
| DisintegrationEngine.DisintegrationPhysicsEngine.Step | app/src/main/java/com/binissa/particlizeeffect/particlize/physics/DisintegrationPhysicsEngine.kt:53-110 | with the angles drawn, slot index becomes its disintegration step and every other slot is unchanged |
| DisintegrationEngine.DisintegrationPhysicsEngine.Accelerate | app/src/main/java/com/binissa/particlizeeffect/particlize/physics/DisintegrationPhysicsEngine.kt:64-105 | slot index is integrated under the disintegration force and every other slot is unchanged; the accumulator is empty again |
| AssemblyEngine.FadeInAlphaShape | app/src/main/java/com/binissa/particlizeeffect/particlize/physics/AssemblyPhysicsEngine.kt:25 | alpha never exceeds 1, is 0 at progress 0, is 1 once progress times the fade-in rate reaches 1, and never falls as progress grows for a non-negative rate |
| AssemblyEngine.GrowScaleShape | app/src/main/java/com/binissa/particlizeeffect/particlize/physics/AssemblyPhysicsEngine.kt:26-27 | the scale is the initial scale at progress 0 and 1 at progress 1, and stays between them in between when the initial scale is at most 1 |
| AssemblyEngine.RotationStopsWhenFaded | app/src/main/java/com/binissa/particlizeeffect/particlize/physics/AssemblyPhysicsEngine.kt:30-33 | the rotation is frozen once progress times the rotation fade-out rate reaches 1, and otherwise turns by 30 dt times the remaining factor |
| AssemblyEngine.EarlyDampingWindow | app/src/main/java/com/binissa/particlizeeffect/particlize/physics/AssemblyPhysicsEngine.kt:36-39 | below progress 0.2 the velocity is scaled by the initial damping, from 0.2 on it is kept; positions never change in this stage |
| AssemblyEngine.PhasePartition | app/src/main/java/com/binissa/particlizeeffect/particlize/physics/AssemblyPhysicsEngine.kt:42-108 | gathering holds exactly below the gathering end, springing exactly from there below the spring end, settling exactly at and past both |
| AssemblyEngine.SpringPhaseProgressInRange | app/src/main/java/com/binissa/particlizeeffect/particlize/physics/AssemblyPhysicsEngine.kt:62-69 | inside the spring phase the phase progress lies in [0, 1), so the stiffness and damping ramp lies in [0.5, 1) |
| AssemblyEngine.SettleApproaches | app/src/main/java/com/binissa/particlizeeffect/particlize/physics/AssemblyPhysicsEngine.kt:97-106 | outside the snap distance each settled coordinate lies between where the particle was and its pixel, and the velocity is scaled by 0.9 |
| AssemblyEngine.SnapIsFinal | app/src/main/java/com/binissa/particlizeeffect/particlize/physics/AssemblyPhysicsEngine.kt:91-111 | a settling particle within the snap distance ends the update exactly on its original pixel with zero velocity |
| AssemblyEngine.AssemblyPhysicsEngine.constructor | app/src/main/java/com/binissa/particlizeeffect/particlize/physics/AssemblyPhysicsEngine.kt:9-16 | the 10000 seeds are drawn once, each a draw in [0, 1) times 1000, and the integrator is idle with the assembly settings |
| AssemblyEngine.AssemblyPhysicsEngine.SeedsInRange | app/src/main/java/com/binissa/particlizeeffect/particlize/physics/AssemblyPhysicsEngine.kt:16 | every seed lies in [0, 1000) |
| AssemblyEngine.AssemblyPhysicsEngine.Prepare | app/src/main/java/com/binissa/particlizeeffect/particlize/physics/AssemblyPhysicsEngine.kt:24-39 | only slot index changes, to its faded-in, grown, spun and early-damped form |
| AssemblyEngine.AssemblyPhysicsEngine.RunPhase | app/src/main/java/com/binissa/particlizeeffect/particlize/physics/AssemblyPhysicsEngine.kt:41-108 | the accumulator ends holding the phase force for the particle's seed, and only slot index changes, by the settle step when settling |
| AssemblyEngine.AssemblyPhysicsEngine.Gather | app/src/main/java/com/binissa/particlizeeffect/particlize/physics/AssemblyPhysicsEngine.kt:44-57 | the accumulator holds the pull toward the pixel at half the approach speed plus turbulence at time seed + 3 progress |
| AssemblyEngine.AssemblyPhysicsEngine.Spring | app/src/main/java/com/binissa/particlizeeffect/particlize/physics/AssemblyPhysicsEngine.kt:60-82 | the accumulator holds the spring toward the pixel with ramped stiffness and damping plus turbulence at time seed + 5 progress |
| AssemblyEngine.AssemblyPhysicsEngine.Settle | app/src/main/java/com/binissa/particlizeeffect/particlize/physics/AssemblyPhysicsEngine.kt:85-107 | only slot index changes: it snaps onto its pixel at rest within the snap distance, otherwise interpolates toward it by min(1, 10 dt) and damps its velocity by 0.9 |
| AssemblyEngine.AssemblyPhysicsEngine.UpdateParticle | app/src/main/java/com/binissa/particlizeeffect/particlize/physics/AssemblyPhysicsEngine.kt:18-112 | slot index becomes its full assembly step (visual update, phase, integration) and every other slot is unchanged; the accumulator is empty again |
| DisintegrationBehavior.BaseAngleShape | app/src/main/java/com/binissa/particlizeeffect/particlize/physics/DisintegrationPhysics.kt:72-82 | a fully directional explosion goes exactly in the configured direction converted to radians; without directionality the angle is a draw in [0, 2 pi) |
| DisintegrationBehavior.ParamsInRange | app/src/main/java/com/binissa/particlizeeffect/particlize/physics/DisintegrationPhysics.kt:84-99 | a particle's draws start it on its pixel, spin it one way or the other, and keep its alpha variation in [0, range], its scale variation within half its range of 0 and its lifespan factor in [1 - range, 1] |
| DisintegrationBehavior.ParticleProgress | app/src/main/java/com/binissa/particlizeeffect/particlize/physics/DisintegrationPhysics.kt:102-107 | the particle progress lies in [0, 1]; it is the controller's report when there is one, otherwise progress times the lifespan factor, whenever that is already in range |
| DisintegrationBehavior.ExplosionFactorShape | app/src/main/java/com/binissa/particlizeeffect/particlize/physics/DisintegrationPhysics.kt:114-116 | the explosion factor is 1 at progress 0, stays in [0, 1], never grows as progress advances and is 0 from the explosion's duration on |
| DisintegrationBehavior.WavePushPerpendicular | app/src/main/java/com/binissa/particlizeeffect/particlize/physics/DisintegrationPhysics.kt:185-196 | the oscillation's push is at right angles to the explosion direction |
| DisintegrationBehavior.MaxDistance | app/src/main/java/com/binissa/particlizeeffect/particlize/physics/DisintegrationPhysics.kt:201 | the full-animation travel distance, 200 times the explosion strength clamped to [0.5, 5], lies in [100, 1000] |
| DisintegrationBehavior.DisplacedShape | app/src/main/java/com/binissa/particlizeeffect/particlize/physics/DisintegrationPhysics.kt:203-213 | at progress 0 the particle is at its starting position, and at any progress it is off it by exactly the movement times the distance times the progress |
| DisintegrationBehavior.FallbackLookShape | app/src/main/java/com/binissa/particlizeeffect/particlize/physics/DisintegrationPhysics.kt:224-236 | without the controller, alpha and scale both start at 1, and with a fade-out rate of at least 1 and alpha variation at most 1 the alpha has reached 0 by progress 1 |
| DisintegrationBehavior.BounceShape | app/src/main/java/com/binissa/particlizeeffect/particlize/physics/DisintegrationPhysics.kt:272-285 | with non-negative elasticity a coordinate below 0 bounces back to at least 0 and one past the edge to at most the edge; one in range is left alone |
| DisintegrationBehavior.WrapShape | app/src/main/java/com/binissa/particlizeeffect/particlize/physics/DisintegrationPhysics.kt:287-294 | a wrapped coordinate lies in [0, limit], one already in range is left alone, and wrapping shifts by a whole number of widths |
| DisintegrationBehavior.BoundedShape | app/src/main/java/com/binissa/particlizeeffect/particlize/physics/DisintegrationPhysics.kt:260-305 | boundary handling moves only the position, and only under BOUNCE and WRAP (into the content under WRAP); under DESTROY it clears the flags exactly when a particle in use is more than 20 units outside; under NONE nothing changes |
| DisintegrationBehavior.DisintegratedShape | app/src/main/java/com/binissa/particlizeeffect/particlize/physics/DisintegrationPhysics.kt:198-254 | an update keeps pixel, velocity, colour, size, shape and delay, never activates a particle, and leaves a particle in use whose alpha is at most 0.01 inactive |
| DisintegrationBehavior.StartsAtOrigin | app/src/main/java/com/binissa/particlizeeffect/particlize/physics/DisintegrationPhysics.kt:198-249 | at particle progress 0 a particle whose starting position lies inside the content stays there under every boundary behaviour |
| DisintegrationBehavior.SeqMaxIsMaximum | app/src/main/java/com/binissa/particlizeeffect/particlize/physics/DisintegrationPhysics.kt:66-67 | the maximum of a non-empty column bounds every element and is one of them |
| DisintegrationBehavior.ContentExtent | app/src/main/java/com/binissa/particlizeeffect/particlize/physics/DisintegrationPhysics.kt:66-67 | a content dimension is at least 1 and at least every pixel coordinate of the column |
| DisintegrationBehavior.MaxOrNull | app/src/main/java/com/binissa/particlizeeffect/particlize/physics/DisintegrationPhysics.kt:66-67 | maxOrNull is null for an empty array and otherwise its largest element |
| DisintegrationBehavior.ContentSize | app/src/main/java/com/binissa/particlizeeffect/particlize/physics/DisintegrationPhysics.kt:66-67 | the computed dimension equals the content extent of the column |
| DisintegrationBehavior.DisintegrationPhysics.constructor | app/src/main/java/com/binissa/particlizeeffect/particlize/physics/DisintegrationPhysics.kt:21-33 | a new behaviour has no draws, wind clock 0, update count 0 and no controller |
| DisintegrationBehavior.DisintegrationPhysics.SetAnimationController | app/src/main/java/com/binissa/particlizeeffect/particlize/physics/DisintegrationPhysics.kt:50-52 | the behaviour now holds the given controller |
| DisintegrationBehavior.DisintegrationPhysics.Reset | app/src/main/java/com/binissa/particlizeeffect/particlize/physics/DisintegrationPhysics.kt:310-314 | reset forgets every particle's draws and zeroes the wind clock and the update count |
| DisintegrationBehavior.DisintegrationPhysics.ParamsFor | app/src/main/java/com/binissa/particlizeeffect/particlize/physics/DisintegrationPhysics.kt:70-100 | the particle's draws are made from its pixel on first use and returned unchanged afterwards |
| DisintegrationBehavior.DisintegrationPhysics.Place | app/src/main/java/com/binissa/particlizeeffect/particlize/physics/DisintegrationPhysics.kt:103-240 | the position, alpha, scale and rotation computed equal those of the placed slot |
| DisintegrationBehavior.DisintegrationPhysics.Draw | app/src/main/java/com/binissa/particlizeeffect/particlize/physics/DisintegrationPhysics.kt:198-240 | only slot index changes, to its placed form |
| DisintegrationBehavior.DisintegrationPhysics.HandleBoundaries | app/src/main/java/com/binissa/particlizeeffect/particlize/physics/DisintegrationPhysics.kt:260-305 | only slot index changes, to its bounded form for the behaviour and elasticity |
| DisintegrationBehavior.DisintegrationPhysics.Apply | app/src/main/java/com/binissa/particlizeeffect/particlize/physics/DisintegrationPhysics.kt:198-254 | only slot index changes, to its full disintegration update |
| DisintegrationBehavior.DisintegrationPhysics.Prepare | app/src/main/java/com/binissa/particlizeeffect/particlize/physics/DisintegrationPhysics.kt:60-128 | the update is counted, the draws are made on first use, the controller is consulted at frequency 4 without touching its clock, and the wind clock advances by the clamped frame time when wind is enabled |
| DisintegrationBehavior.DisintegrationPhysics.UpdateParticle | app/src/main/java/com/binissa/particlizeeffect/particlize/physics/DisintegrationPhysics.kt:54-255 | the update is counted, the wind clock advances when wind is enabled, the draws are cached, and slot index becomes its disintegration update under the controller's guidance; every other slot is unchanged |
| AssemblyBehavior.OffsetFarEnough | app/src/main/java/com/binissa/particlizeeffect/particlize/physics/AssemblyPhysics.kt:59-67 | a particle's starting offset is at least 150 and less than 300 from its pixel, so it is never the zero vector |
| AssemblyBehavior.ParamsInRange | app/src/main/java/com/binissa/particlizeeffect/particlize/physics/AssemblyPhysics.kt:69-77 | each alpha, scale and rotation variation lies within half its range of 0, the phase in [0, 2 pi), the frequency within 20% of the configured one and the turbulence offsets in [0, 1000) |
| AssemblyBehavior.ParticleProgress | app/src/main/java/com/binissa/particlizeeffect/particlize/physics/AssemblyPhysics.kt:99-104 | the particle progress lies in [0, 1]; it is the controller's report when there is one and the caller's progress otherwise, whenever that is already in range |
| AssemblyBehavior.EaseShape | app/src/main/java/com/binissa/particlizeeffect/particlize/physics/AssemblyPhysics.kt:106-112 | the ease maps 0 to 0 and 1 to 1, its two halves meet at 0.5, and on [0, 1] it stays in [0, 1] and never decreases |
| AssemblyBehavior.EaseHalves | app/src/main/java/com/binissa/particlizeeffect/particlize/physics/AssemblyPhysics.kt:108-112 | below 0.5 the ease lies in [0, 0.5); from 0.5 to 1 it lies in [0.5, 1] |
| AssemblyBehavior.SwayIsPerpendicular | app/src/main/java/com/binissa/particlizeeffect/particlize/physics/AssemblyPhysics.kt:130-143 | the oscillation's sway is at right angles to the direction from start to target, and vanishes with the oscillation |
| AssemblyBehavior.JitterBound | app/src/main/java/com/binissa/particlizeeffect/particlize/physics/AssemblyPhysics.kt:146-156 | each turbulence jitter component stays within 10 times the faded turbulence strength, and is 0 once the ease reaches 1 |
| AssemblyBehavior.PositionAtEnd | app/src/main/java/com/binissa/particlizeeffect/particlize/physics/AssemblyPhysics.kt:114-160 | once the ease reaches 1 the computed position is exactly the particle's pixel |
| AssemblyBehavior.FallbackAlpha | app/src/main/java/com/binissa/particlizeeffect/particlize/physics/AssemblyPhysics.kt:167-171 | without the controller's alpha, the alpha is clamped into [0.1, 1] |
| AssemblyBehavior.FallbackScaleShape | app/src/main/java/com/binissa/particlizeeffect/particlize/physics/AssemblyPhysics.kt:176-180 | the fallback scale goes from the initial to the final scale, each times the particle's variation, and grows with the ease for a growing config |
| AssemblyBehavior.SnapRule | app/src/main/java/com/binissa/particlizeeffect/particlize/physics/AssemblyPhysics.kt:188-199 | the snap changes a slot only past 95% progress within 5 units of its pixel, and then puts it on its pixel at alpha 1 and scale 1; snapping twice is snapping once |
| AssemblyBehavior.AssembledKeeps | app/src/main/java/com/binissa/particlizeeffect/particlize/physics/AssemblyPhysics.kt:80-199 | an update keeps pixel, colour, size, shape, flags and delay, and leaves the velocity columns holding the launch offset |
| AssemblyBehavior.NeverRelaunches | app/src/main/java/com/binissa/particlizeeffect/particlize/physics/AssemblyPhysics.kt:84-93 | with a non-zero starting offset the first update leaves a non-zero velocity, so later updates do not launch the particle again |
| AssemblyBehavior.ArrivesAtEnd | app/src/main/java/com/binissa/particlizeeffect/particlize/physics/AssemblyPhysics.kt:106-199 | at particle progress 1 the particle ends on its pixel at alpha 1 and scale 1 with its rotation unchanged, whatever the controller reported |
| AssemblyBehavior.AlphaInRange | app/src/main/java/com/binissa/particlizeeffect/particlize/physics/AssemblyPhysics.kt:164-199 | the alpha an update leaves lies in [0, 1] whenever the controller's reported alpha does |
| AssemblyBehavior.AssemblyPhysics.constructor | app/src/main/java/com/binissa/particlizeeffect/particlize/physics/AssemblyPhysics.kt:16-27 | a new behaviour has no draws, update count 0 and no controller |
| AssemblyBehavior.AssemblyPhysics.SetAnimationController | app/src/main/java/com/binissa/particlizeeffect/particlize/physics/AssemblyPhysics.kt:42-44 | the behaviour now holds the given controller |
| AssemblyBehavior.AssemblyPhysics.Reset | app/src/main/java/com/binissa/particlizeeffect/particlize/physics/AssemblyPhysics.kt:205-208 | reset forgets every particle's draws and zeroes the update count |
| AssemblyBehavior.AssemblyPhysics.ParamsFor | app/src/main/java/com/binissa/particlizeeffect/particlize/physics/AssemblyPhysics.kt:58-78 | the particle's draws are made on first use and returned unchanged afterwards |
| AssemblyBehavior.AssemblyPhysics.Aim | app/src/main/java/com/binissa/particlizeeffect/particlize/physics/AssemblyPhysics.kt:95-156 | the computed position equals the eased interpolation plus sway and jitter of the launched slot |
| AssemblyBehavior.AssemblyPhysics.Steer | app/src/main/java/com/binissa/particlizeeffect/particlize/physics/AssemblyPhysics.kt:95-199 | the position, alpha, scale and rotation computed equal those of the moved slot |
| AssemblyBehavior.AssemblyPhysics.Advance | app/src/main/java/com/binissa/particlizeeffect/particlize/physics/AssemblyPhysics.kt:80-199 | only slot index changes, to its full assembly update from the given draws and guidance |
| AssemblyBehavior.AssemblyPhysics.UpdateParticle | app/src/main/java/com/binissa/particlizeeffect/particlize/physics/AssemblyPhysics.kt:46-200 | the update is counted, the draws are cached, and slot index becomes its assembly update under the controller's guidance; every other slot is unchanged |
| AssemblyBehavior.AssemblyPhysics.Prepare | app/src/main/java/com/binissa/particlizeeffect/particlize/physics/AssemblyPhysics.kt:51-124 | the update is counted, the draws are made on first use, and the controller is consulted at the particle's frequency without touching its clock |
| System.SeededShape | app/src/main/java/com/binissa/particlizeeffect/particlize/particle/ParticleSystem.kt:190-202 | a created particle sits at rest on its pixel with the pixel's colour, the configured shape's code and a size within [0.7, 1.3) of the configured one; its flags and delay are untouched |
| System.SamplingStep | app/src/main/java/com/binissa/particlizeeffect/particlize/particle/ParticleSystem.kt:174-176 | the sampling step is always at least 1 |
| System.GatheredShape | app/src/main/java/com/binissa/particlizeeffect/particlize/particle/ParticleSystem.kt:133-159 | an assembling particle starts with alpha in [0.3, 0.5) and scale in [0.4, 0.6), moved between 150 and 300 pixels from where it was, with pixel, velocity, shape, flags and delay unchanged |
| System.PreparedKeeps | app/src/main/java/com/binissa/particlizeeffect/particlize/particle/ParticleSystem.kt:76-81 | preparing a particle for either effect keeps its pixel, shape, flags and delay |
| System.ClearedAll | app/src/main/java/com/binissa/particlizeeffect/particlize/particle/ParticleSystem.kt:70 | emptying the store keeps the number of slots |
| System.SeededAll | app/src/main/java/com/binissa/particlizeeffect/particlize/particle/ParticleSystem.kt:181-207 | seeding the first n slots keeps the number of slots |
| System.PreparedAll | app/src/main/java/com/binissa/particlizeeffect/particlize/particle/ParticleSystem.kt:74-81 | preparing the first n slots keeps the number of slots |
| System.OriginalXs | app/src/main/java/com/binissa/particlizeeffect/particlize/particle/ParticleSystem.kt:84-90 | the pattern sees one original x coordinate per particle in use |
| System.OriginalYs | app/src/main/java/com/binissa/particlizeeffect/particlize/particle/ParticleSystem.kt:84-90 | the pattern sees one original y coordinate per particle in use |
| System.EmittedAll | app/src/main/java/com/binissa/particlizeeffect/particlize/particle/ParticleSystem.kt:84-90 | scheduling the first n slots keeps the number of slots |
| System.ReleasedShape | app/src/main/java/com/binissa/particlizeeffect/particlize/particle/ParticleSystem.kt:270-286 | a slot becomes active exactly when it is a pending slot in use whose delay has come, stops pending exactly then, changes in nothing else, and once released stays released at any later progress |
| System.RepeatedIsProduct | app/src/main/java/com/binissa/particlizeeffect/particlize/particle/ParticleSystem.kt:254-261 | advancing the wind clock by the same step once per particle adds the number of particles times the step |
| System.FrameTime | app/src/main/java/com/binissa/particlizeeffect/particlize/particle/ParticleSystem.kt:231-232 | the frame time handed to the behaviours lies in [0.001, 0.05] |
| System.FrameTimeTracksGap | app/src/main/java/com/binissa/particlizeeffect/particlize/particle/ParticleSystem.kt:231-232 | read before the clock update, the frame time is the gap since the last update in seconds for any gap of 1 to 50 ms |
| System.FrameTimeAsWrittenIsFloor | app/src/main/java/com/binissa/particlizeeffect/particlize/particle/ParticleSystem.kt:225-232 | read after the clock update, as written, the frame time of every frame a running unpaused clock lets through is the 0.001 floor, even for a 30 ms gap the corrected reading reports as 0.03 |
| System.ParticleSystem.constructor | app/src/main/java/com/binissa/particlizeeffect/particlize/particle/ParticleSystem.kt:24-51 | a new system holds an empty store sized by the particle count, no effect, zero dimensions, and both behaviours wired to the one animation controller |
| System.ParticleSystem.SeedColumn | app/src/main/java/com/binissa/particlizeeffect/particlize/particle/ParticleSystem.kt:182-204 | one column of the sampling loop seeds a particle for every visible pixel visited, in order, and stops early only when the store is full |
| System.ParticleSystem.SeedGrid | app/src/main/java/com/binissa/particlizeeffect/particlize/particle/ParticleSystem.kt:181-207 | the sampling loops visit a prefix of the sampling grid, seed one particle per visible pixel visited in order, and stop early only when the store is full |
| System.ParticleSystem.CreateParticlesFromBitmap | app/src/main/java/com/binissa/particlizeeffect/particlize/particle/ParticleSystem.kt:165-210 | the store ends holding one seeded particle per visible sampled pixel, in sampling order, as many as there are or as the store holds; every other slot is unchanged |
| System.ParticleSystem.DisperseOne | app/src/main/java/com/binissa/particlizeeffect/particlize/particle/ParticleSystem.kt:108-124 | only slot index changes, to its disintegration start: random looks and velocity, full alpha and scale unless randomised |
| System.ParticleSystem.InitializeDisintegrationParticles | app/src/main/java/com/binissa/particlizeeffect/particlize/particle/ParticleSystem.kt:105-125 | every particle in use gets its disintegration start and every other slot is unchanged |
| System.ParticleSystem.GatherOne | app/src/main/java/com/binissa/particlizeeffect/particlize/particle/ParticleSystem.kt:133-159 | only slot index changes, to its assembly start |
| System.ParticleSystem.InitializeAssemblyParticles | app/src/main/java/com/binissa/particlizeeffect/particlize/particle/ParticleSystem.kt:130-160 | every particle in use gets its assembly start and every other slot is unchanged |
| System.ParticleSystem.Populate | app/src/main/java/com/binissa/particlizeeffect/particlize/particle/ParticleSystem.kt:70-81 | the store is emptied, refilled from the bitmap's visible sampled pixels, and every new particle prepared for the effect |
| System.ParticleSystem.InitializeParticles | app/src/main/java/com/binissa/particlizeeffect/particlize/particle/ParticleSystem.kt:76-81 | every particle in use is prepared for the effect, by the disintegration or the assembly start |
| System.ParticleSystem.GenerateParticles | app/src/main/java/com/binissa/particlizeeffect/particlize/particle/ParticleSystem.kt:56-100 | the effect and content size are recorded, both behaviours forget their draws, the store holds one prepared and scheduled particle per visible sampled pixel up to capacity, the active ones are counted, and the clock restarts at now with no per-particle draws |
| System.ParticleSystem.Begin | app/src/main/java/com/binissa/particlizeeffect/particlize/particle/ParticleSystem.kt:57-69 | the content size and effect are recorded and both behaviours forget their draws and the wind clock |
| System.ParticleSystem.FillAndStart | app/src/main/java/com/binissa/particlizeeffect/particlize/particle/ParticleSystem.kt:70-99 | the store is regenerated and scheduled, the active ones counted, and the clock restarts at now |
| System.ParticleSystem.Fill | app/src/main/java/com/binissa/particlizeeffect/particlize/particle/ParticleSystem.kt:70-95 | the store is regenerated from the bitmap and scheduled by the emission pattern, and the active ones are counted |
| System.ParticleSystem.Schedule | app/src/main/java/com/binissa/particlizeeffect/particlize/particle/ParticleSystem.kt:83-93 | every particle in use is given its delay and flags by the emission pattern over the original positions, and the active ones are counted |
| System.ParticleSystem.ReleaseOne | app/src/main/java/com/binissa/particlizeeffect/particlize/particle/ParticleSystem.kt:276-279 | only pending slot i can change, to its released form at the given progress |
| System.ParticleSystem.ActivatePendingParticles | app/src/main/java/com/binissa/particlizeeffect/particlize/particle/ParticleSystem.kt:270-286 | every slot becomes its released form at the clock's raw progress: exactly the pending particles in use whose delay has come become active |
| System.ParticleSystem.DisintegrateOne | app/src/main/java/com/binissa/particlizeeffect/particlize/particle/ParticleSystem.kt:254-261 | the disintegration behaviour updates only the given particle: its new slot is exactly `DisintegrationBehavior.Disintegrated` of the old one, with its cached draws, the controller's guidance and the advanced wind clock, so it keeps its pixel, looks and delay, sets no flag and is retired once faded |
| System.ParticleSystem.AssembleOne | app/src/main/java/com/binissa/particlizeeffect/particlize/particle/ParticleSystem.kt:254-261 | the assembly behaviour updates only the given particle: its new slot is exactly `AssemblyBehavior.Assembled` of the old one, with its cached draws and the controller's guidance, so it keeps its pixel, looks, flags and delay |
| System.ParticleSystem.AdvanceOne | app/src/main/java/com/binissa/particlizeeffect/particlize/particle/ParticleSystem.kt:254-261 | the effect's behaviour advances only the given active particle at the eased progress, giving exactly the disintegrated or assembled slot, and the wind clock moves by one step |
| System.ParticleSystem.AdvanceStep | app/src/main/java/com/binissa/particlizeeffect/particlize/particle/ParticleSystem.kt:254-261 | one more listed particle is advanced, extending the set of handled particles by it |
| System.ParticleSystem.AdvanceActive | app/src/main/java/com/binissa/particlizeeffect/particlize/particle/ParticleSystem.kt:253-261 | each listed active particle is advanced once at the eased progress, every other slot is unchanged, and the wind clock moves once per particle |
| System.ParticleSystem.AdvanceAll | app/src/main/java/com/binissa/particlizeeffect/particlize/particle/ParticleSystem.kt:243-261 | every particle active when the loop starts is advanced and only those, and their number is recorded as the active count |
| System.ParticleSystem.Frame | app/src/main/java/com/binissa/particlizeeffect/particlize/particle/ParticleSystem.kt:234-261 | due particles are released at the raw progress, then every active particle is advanced; other slots are as release left them and the clock is untouched |
| System.ParticleSystem.Tick | app/src/main/java/com/binissa/particlizeeffect/particlize/particle/ParticleSystem.kt:224-232 | the clock takes its update transition, the result is whether it still runs, and the frame time is read from the clock before the update; the store is untouched. This is the correction of the second Findings row; as written the frame time is read after the update and is always the 0.001 floor (System.FrameTimeAsWritten, System.FrameTimeAsWrittenIsFloor) |
| System.ParticleSystem.RunFrame | app/src/main/java/com/binissa/particlizeeffect/particlize/particle/ParticleSystem.kt:234-264 | after the frame, the result is true exactly when some particle in use is still active or pending |
| System.ParticleSystem.UpdateAnimation | app/src/main/java/com/binissa/particlizeeffect/particlize/particle/ParticleSystem.kt:215-265 | without an effect it returns false and changes nothing; otherwise the clock takes its update, and a stopped clock returns false with the store untouched, while a running one releases, advances and reports whether any particle is still active or pending, at the frame time read before the clock update. This is the correction of the second Findings row; as written the frame time is read after the update and is always the 0.001 floor (System.FrameTimeAsWritten, System.FrameTimeAsWrittenIsFloor) |
| Controller.Initial | app/src/main/java/com/binissa/particlizeeffect/particlize/controller/ParticlizeController.kt:27-57 | a new controller is idle, holds no system, runs no animation job and awaits no request |
| Controller.Started | app/src/main/java/com/binissa/particlizeeffect/particlize/controller/ParticlizeController.kt:124-150 | start always records the request and its config; the state changes, to CAPTURING, and the redraw flag flips exactly when the controller was idle; nothing else changes |
| Controller.Captured | app/src/main/java/com/binissa/particlizeeffect/particlize/controller/ParticlizeController.kt:84-119 | a captured frame is ignored unless the controller awaits content; otherwise the bitmap, a system, the effect and the callback are stored, the controller runs its animation job and the request is consumed |
| Controller.Destroyed | app/src/main/java/com/binissa/particlizeeffect/particlize/controller/ParticlizeController.kt:246-257 | destroy leaves the controller DESTROYED with no job, no system and every nullable field cleared; the redraw flag and config stay |
| Controller.Redrawn | app/src/main/java/com/binissa/particlizeeffect/particlize/controller/ParticlizeController.kt:180-183 | a frame that keeps animating flips the redraw flag and changes nothing else |
| Controller.Toggled | app/src/main/java/com/binissa/particlizeeffect/particlize/controller/ParticlizeController.kt:164-187 | after n frames that keep animating the redraw flag has flipped n times and nothing else has changed |
| Controller.CompletedAsWritten | app/src/main/java/com/binissa/particlizeeffect/particlize/controller/ParticlizeController.kt:171-178 | as written, the completion branch destroys the controller and then finds no callback to invoke |
| Controller.Completed | app/src/main/java/com/binissa/particlizeeffect/particlize/controller/ParticlizeController.kt:171-178 | the corrected completion branch destroys the controller and invokes the callback registered before destroy cleared it |
| Controller.TransitionsKeepConsistent | app/src/main/java/com/binissa/particlizeeffect/particlize/controller/ParticlizeController.kt:84-257 | a new controller is consistent (job live exactly while RUNNING, a request while CAPTURING, system, effect, callback and bitmap exactly while RUNNING) and start, capture, frames, destroy and completion keep it so |
| Controller.DestroyedIsTerminal | app/src/main/java/com/binissa/particlizeeffect/particlize/controller/ParticlizeController.kt:141-143 | once DESTROYED no transition leaves that state: a later start is recorded but never captured |
| Controller.DestroyIdempotent | app/src/main/java/com/binissa/particlizeeffect/particlize/controller/ParticlizeController.kt:246-257 | destroying twice is destroying once |
| Controller.CaptureAcceptedIffNeeded | app/src/main/java/com/binissa/particlizeeffect/particlize/controller/ParticlizeController.kt:87-89 | a captured frame changes the controller exactly when needsCapture holds |
| Controller.StartAwaitsCapture | app/src/main/java/com/binissa/particlizeeffect/particlize/controller/ParticlizeController.kt:124-150 | after start, needsCapture holds exactly when the controller was idle or already capturing |
| Controller.QueriesAgree | app/src/main/java/com/binissa/particlizeeffect/particlize/controller/ParticlizeController.kt:214-226 | on a consistent controller isRunning holds exactly while the animation job is live, and needsCapture, isRunning and hasEffectStarted exclude each other |
| Controller.CallbackLostAsWritten | app/src/main/java/com/binissa/particlizeeffect/particlize/controller/ParticlizeController.kt:171-178 | for an effect started, captured and animated for any number of frames, the callback is registered, yet the as-written completion invokes none |
| Controller.StartedEffectCallsBack | app/src/main/java/com/binissa/particlizeeffect/particlize/controller/ParticlizeController.kt:106-178 | with the corrected completion the same effect invokes exactly the callback given to start, after the controller is destroyed |
| Controller.ToggledKeepsCallback | app/src/main/java/com/binissa/particlizeeffect/particlize/controller/ParticlizeController.kt:180-183 | frames that keep animating leave the registered callback in place |
| Controller.ParticlizeController.constructor | app/src/main/java/com/binissa/particlizeeffect/particlize/controller/ParticlizeController.kt:25-57 | a new controller's fields are the initial ones for the given default config |
| Controller.ParticlizeController.SetConfig | app/src/main/java/com/binissa/particlizeeffect/particlize/controller/ParticlizeController.kt:59-61 | only the effect config changes, to the given one |
| Controller.ParticlizeController.Start | app/src/main/java/com/binissa/particlizeeffect/particlize/controller/ParticlizeController.kt:124-150 | the controller's fields take the start transition for the request |
| Controller.ParticlizeController.OnContentCaptured | app/src/main/java/com/binissa/particlizeeffect/particlize/controller/ParticlizeController.kt:84-119 | the fields take the capture transition; when the frame is accepted the new system is fresh and has generated the bitmap's particles for the request at now, otherwise the system is unchanged |
| Controller.ParticlizeController.Install | app/src/main/java/com/binissa/particlizeeffect/particlize/controller/ParticlizeController.kt:92-117 | the bitmap, system, effect and callback are stored, the state is RUNNING with a live job and no request; the redraw flag, config and size stay |
| Controller.ParticlizeController.Generate | app/src/main/java/com/binissa/particlizeeffect/particlize/controller/ParticlizeController.kt:98-110 | the system returned is fresh, built from the request's config, and has generated the bitmap's particles for the effect with its clock started at now |
| Controller.ParticlizeController.Build | app/src/main/java/com/binissa/particlizeeffect/particlize/controller/ParticlizeController.kt:98-102 | the system returned is fresh and valid and holds exactly the request's configurations |
| Controller.ParticlizeController.StartAnimationLoop | app/src/main/java/com/binissa/particlizeeffect/particlize/controller/ParticlizeController.kt:155-161 | afterwards an animation job is live |
| Controller.ParticlizeController.Frame | app/src/main/java/com/binissa/particlizeeffect/particlize/controller/ParticlizeController.kt:165-186 | a frame that keeps animating flips the redraw flag and keeps the system; a frame that ends it destroys the controller and invokes the callback registered at start. This is the correction of the third Findings row; as written the completion is Controller.CompletedAsWritten and invokes nothing (Controller.CallbackLostAsWritten) |
| Controller.ParticlizeController.Animate | app/src/main/java/com/binissa/particlizeeffect/particlize/controller/ParticlizeController.kt:169 | the held system advances a frame; the controller's own fields and the system reference are unchanged |
| Controller.ParticlizeController.Finish | app/src/main/java/com/binissa/particlizeeffect/particlize/controller/ParticlizeController.kt:171-178 | the controller is destroyed and the callback it held, taken before destroy clears it, is invoked. This is the correction of the third Findings row; as written the completion is Controller.CompletedAsWritten and invokes nothing (Controller.CallbackLostAsWritten) |
| Controller.ParticlizeController.AnimationLoop | app/src/main/java/com/binissa/particlizeeffect/particlize/controller/ParticlizeController.kt:164-187 | while frames keep animating the redraw flag flips once per frame; the loop ends either when the readings run out with the job live, or after the first frame that ends the effect, with the controller destroyed and the registered callback invoked. This is the correction of the third Findings row; as written the completion is Controller.CompletedAsWritten and invokes nothing (Controller.CallbackLostAsWritten) |
| Controller.ParticlizeController.Destroy | app/src/main/java/com/binissa/particlizeeffect/particlize/controller/ParticlizeController.kt:246-257 | the fields take the destroy transition and the system reference is cleared |
| Controller.ParticlizeController.Cleanup | app/src/main/java/com/binissa/particlizeeffect/particlize/controller/ParticlizeController.kt:262-265 | cleanup destroys the controller |

## Left out

- Concurrency: `withContext`, the coroutine scopes, `launch`, `delay`, `isActive` and `cancel` are not modelled. Each controller transition is one atomic step, and particle generation finishes before the effect is RUNNING.
- Rendering: `RenderEngine`, `render` and the Compose modifier (including how it sets the component size) are outside the simulation and not modelled.
- Read-only accessors: `getParticleData`, `getCompletionPercentage`, `getContentDimensions`, `getRedrawSignal` and `getState` only return state the model exposes directly, so they have no members of their own.
- Diagnostics: the frame and update counters kept only for logging, and the logging itself, are not modelled.
- The Android `Context` in the start parameters is not modelled: the simulation never reads it.
- Numbers: `Float` is a real and `Int`/`Long` an unbounded integer. IEEE rounding, NaN, infinities, 32/64-bit wrap-around and the saturation of `Float.toInt()` are not modelled.
- Oracles: sine, cosine, square root, arc tangent, power and the random source are parameters. Only the properties their validity predicates state are used. The random source is a fixed function of slot and channel, so after `Animation.AnimationController.ForgetDraws` (or `Start`) clears the per-particle maps, the next draws repeat the earlier values where Kotlin's `Random` would draw fresh ones; no contract relies on either.
- Default and optional arguments: Kotlin parameters with defaults (the `Particle` constructor's properties, `ParticlizeController.start`'s optional config and callback) are required parameters in the model. Every modelled caller passes them explicitly.
- `Random.nextBoolean()` is modelled as a draw from [0, 1) compared with 0.5.
- The easing function is a parameter. The try/catch fallback around a throwing easing is not modelled, since a Dafny function cannot throw.
- The friction applied to `moveX`/`moveY` after the position has been written (DisintegrationPhysics lines 216-217) has no effect and is not modelled.
- Wind, the vortex and turbulence are modelled as forces. Beyond the explosion's decay and the wave's direction, no property of their size is proved.
- System.ParticleSystem.constructor: requires a non-negative particle count, because the source's arrays of negative size throw. It also requires a positive explosion duration, which excludes negative durations as well as zero: the source divides by the duration, and the system's invariant (`System.ParticleSystem.Valid`) relies on a positive divisor for every later frame.
- System.ParticleSystem.AdvanceStep, System.ParticleSystem.AdvanceActive, System.ParticleSystem.AdvanceAll, System.ParticleSystem.Frame, System.ParticleSystem.RunFrame, System.ParticleSystem.UpdateAnimation: for the particles the frame loop moves, these contracts state only what `System.Advanced` says: the pixel, color, size, shape and delay are kept, the flags are only cleared, and a disintegrating particle ends retired. They do not state the new position, velocity, alpha, scale or rotation. That exact slot is stated per particle by `System.ParticleSystem.DisintegrateOne`, `System.ParticleSystem.AssembleOne` and `System.ParticleSystem.AdvanceOne`. Carrying it through the loop would mean tracking each particle's guidance and its own wind-clock reading across the later steps, which costs more proof than the loop methods can afford.
- Controller.ParticlizeController.Start: requires a configuration the system constructor accepts (the same two conditions).
- Physics.PhysicsEngine.AddAttractionForce: requires a non-zero `minDistance`. With 0 and a particle on the target, the source divides 0 by 0.
- DisintegrationEngine.DisintegrationPhysicsEngine.UpdateParticle: requires slot indices below the 10000 angle slots while the explosion lasts, and at most 10000 particles on the first call. Beyond that the source indexes outside its angle array and throws. It also excludes a negative progress against a zero explosion duration (it admits every other progress, negative included), where the source's Float division by zero gives an infinite strength that the model's reals cannot hold. Step, Accelerate, Push and Explode carry the same condition.
- Animation.AnimationController: the remaining repeat count is the controller's own field. Decrementing it does not write back to the shared configuration object.

## Findings

| source | as written | input that shows it | evidently intended | confidence | as-written member | corrected member |
|---|---|---|---|---|---|---|
| app/src/main/java/com/binissa/particlizeeffect/particlize/emission/PatternedEmissionStrategy.kt:57-69 | each pattern value is divided by `maxValue - minValue` with no guard for a zero range | a 1x1 opaque bitmap emitted RIGHT_TO_LEFT: both extremes are 1, so the range is 0 and the quotient is 0/0 | normalise only when the range is positive, as `EmissionController` does at lines 207-213, and keep the raw value otherwise | not executed | PatternedEmission.SinglePixelRangeIsZero | PatternedEmission.DelaysFollowPattern |
| app/src/main/java/com/binissa/particlizeeffect/particlize/particle/ParticleSystem.kt:225-232 | the frame time is read from the animation controller after `update` has already set `lastUpdateTime` to the current time (Animation/AnimationController.kt:101-102, 147-149) | any running, unpaused frame 30 ms after the previous one: the gap read is 0, so the frame time is the 0.001 floor rather than 0.03 | read the gap before the clock is updated, so the frame time is the elapsed time clamped to [0.001, 0.05] | not executed | System.FrameTimeAsWrittenIsFloor | System.FrameTimeTracksGap |
| app/src/main/java/com/binissa/particlizeeffect/particlize/controller/ParticlizeController.kt:171-178 | on completion `destroy()` runs first and sets `onEffectComplete` to null, and only then is `onEffectComplete?.invoke()` called | start an effect with a callback, capture the content, and animate until `updateAnimation` returns false: no callback is invoked | take the callback before `destroy()` clears it and invoke it afterwards | not executed | Controller.CallbackLostAsWritten | Controller.StartedEffectCallsBack |
