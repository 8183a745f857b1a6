/** `AnimationController` (Animation/AnimationController.kt): the animation clock
    with start, pause, resume and frame updates, finite or infinite repeats, and
    the per-particle randomisation that is drawn lazily and then kept. Times are
    the millisecond clock readings the caller passes in; `Long` is modelled as an
    unbounded `int`. */
module Animation {
  import opened Numeric
  import opened Oracles
  import opened Config
  import opened Environment

  /** The timing and progress fields of the controller, as one value. */
  datatype Clock = Clock(
    startTime: int,
    lastUpdateTime: int,
    pauseStartTime: int,
    totalPausedTime: int,
    isRunning: bool,
    isPaused: bool,
    rawProgress: real,
    easedProgress: real,
    repeatCount: int)

  /** The outcome of one `update`: the new clock and the value returned. */
  datatype Step = Step(clock: Clock, running: bool)

  /** What every reachable clock satisfies: it is paused only while running, and
      its raw progress is a fraction. */
  predicate Coherent(c: Clock)
  {
    && (c.isPaused ==> c.isRunning)
    && 0.0 <= c.rawProgress <= 1.0
  }

  /** The effective elapsed time at `now`, pauses excluded. */
  function Elapsed(c: Clock, now: int): int
  {
    now - c.startTime - c.totalPausedTime
  }

  /** `start`. */
  function Started(c: Clock, now: int): Clock
  {
    c.(startTime := now, lastUpdateTime := now, isRunning := true, isPaused := false,
       rawProgress := 0.0, easedProgress := 0.0, totalPausedTime := 0)
  }

  /** `pause`: only a running, unpaused clock pauses. */
  function Paused(c: Clock, now: int): Clock
  {
    if c.isRunning && !c.isPaused then c.(isPaused := true, pauseStartTime := now) else c
  }

  /** `resume`: only a running, paused clock resumes; the pause is added to the
      total paused time. */
  function Resumed(c: Clock, now: int): Clock
  {
    if c.isRunning && c.isPaused then
      c.(totalPausedTime := c.totalPausedTime + (now - c.pauseStartTime), isPaused := false, lastUpdateTime := now)
    else c
  }

  /** `reset`: stops the clock and zeroes the progress; the timing fields stay. */
  function ResetClock(c: Clock): Clock
  {
    c.(isRunning := false, isPaused := false, rawProgress := 0.0, easedProgress := 0.0)
  }

  /** `(elapsed.toFloat() / duration).coerceIn(0f, 1f)`, reached only while
      elapsed < duration. With a zero duration that means a negative elapsed time,
      whose float quotient is negative infinity and clamps to 0. */
  function RawProgressAt(elapsed: int, duration: int): (r: real)
    ensures 0.0 <= r <= 1.0
    ensures duration > 0 && 0 <= elapsed <= duration ==> r * duration as real == elapsed as real
    ensures duration > 0 && elapsed <= 0 ==> r == 0.0
  {
    if duration == 0 then 0.0 else Clamp(elapsed as real / duration as real, 0.0, 1.0)
  }

  /** For a positive duration, progress never goes backwards as time passes. */
  lemma RawProgressMonotone(e1: int, e2: int, duration: int)
    requires duration > 0 && e1 <= e2
    ensures RawProgressAt(e1, duration) <= RawProgressAt(e2, duration)
  {
    var d := duration as real;
    var q1, q2 := e1 as real / d, e2 as real / d;
    assert q1 * d == e1 as real && q2 * d == e2 as real;
    if q1 > q2 {
      ProductPositive(q1 - q2, d, (q1 - q2) * d);
    }
  }

  /** `update(currentTime)`. */
  function Updated(c: Clock, config: AnimationConfig, now: int): Step
  {
    if !c.isRunning then Step(c, false)
    else if c.isPaused then Step(c, true)
    else
      var ticked := c.(lastUpdateTime := now);
      var elapsed := Elapsed(c, now);
      if elapsed >= config.duration then
        if c.repeatCount != 0 then
          var remaining := if c.repeatCount > 0 then c.repeatCount - 1 else c.repeatCount;
          Step(ticked.(repeatCount := remaining, startTime := now - c.totalPausedTime), true)
        else
          Step(ticked.(isRunning := false, rawProgress := 1.0, easedProgress := 1.0), false)
      else
        var raw := RawProgressAt(elapsed, config.duration);
        Step(ticked.(rawProgress := raw, easedProgress := config.easing(raw)), true)
  }

  /** Whether an update at `now` reaches the end of the duration. */
  predicate Completes(c: Clock, config: AnimationConfig, now: int)
  {
    c.isRunning && !c.isPaused && Elapsed(c, now) >= config.duration
  }

  /** Every transition keeps the clock coherent. */
  lemma TransitionsKeepCoherent(c: Clock, config: AnimationConfig, now: int)
    requires Coherent(c)
    ensures Coherent(Started(c, now))
    ensures Coherent(Paused(c, now))
    ensures Coherent(Resumed(c, now))
    ensures Coherent(ResetClock(c))
    ensures Coherent(Updated(c, config, now).clock)
  {
  }

  /** What `update` reports: false on a stopped clock, which it leaves alone;
      true on a paused clock, which it leaves alone; and on a live clock false
      exactly when the duration is over and no repeat is left. */
  lemma UpdateReports(c: Clock, config: AnimationConfig, now: int)
    ensures !c.isRunning ==> Updated(c, config, now) == Step(c, false)
    ensures c.isRunning && c.isPaused ==> Updated(c, config, now) == Step(c, true)
    ensures c.isRunning && !c.isPaused ==>
              (!Updated(c, config, now).running <==> Completes(c, config, now) && c.repeatCount == 0)
    ensures Updated(c, config, now).running <==> Updated(c, config, now).clock.isRunning
  {
  }

  /** A completed, repeating clock restarts its duration from `now`, keeping its
      progress; a live clock that has not completed has progress elapsed/duration. */
  lemma UpdateRestartsOrAdvances(c: Clock, config: AnimationConfig, now: int)
    requires c.isRunning && !c.isPaused
    ensures var r := Updated(c, config, now).clock;
      r.lastUpdateTime == now
      && (Completes(c, config, now) && c.repeatCount != 0 ==>
            Elapsed(r, now) == 0 && r.rawProgress == c.rawProgress && r.easedProgress == c.easedProgress)
      && (!Completes(c, config, now) ==>
            r.rawProgress == RawProgressAt(Elapsed(c, now), config.duration)
            && r.easedProgress == config.easing(r.rawProgress))
  {
  }

  /** The repeat count only ever drops by one from a positive value; a negative
      (infinite) count never changes. */
  lemma RepeatCountStep(c: Clock, config: AnimationConfig, now: int)
    ensures var n := Updated(c, config, now).clock.repeatCount;
      n == c.repeatCount || (c.repeatCount > 0 && n == c.repeatCount - 1)
    ensures c.repeatCount < 0 ==> Updated(c, config, now).clock.repeatCount == c.repeatCount
    ensures 0 <= c.repeatCount ==> 0 <= Updated(c, config, now).clock.repeatCount
  {
  }

  /** Pausing at t1 and resuming at t2 freezes the effective elapsed time: at t2
      it is what it was at t1. */
  lemma PauseFreezesElapsed(c: Clock, t1: int, t2: int)
    requires c.isRunning && !c.isPaused
    ensures var r := Resumed(Paused(c, t1), t2);
      !r.isPaused && r.isRunning && r.lastUpdateTime == t2
      && r.totalPausedTime == c.totalPausedTime + (t2 - t1)
      && Elapsed(r, t2) == Elapsed(c, t1)
  {
  }

  /** A second pause, and a resume of an unpaused clock, change nothing. */
  lemma PauseResumeGuards(c: Clock, t1: int, t2: int)
    ensures Paused(Paused(c, t1), t2) == Paused(c, t1)
    ensures !c.isPaused ==> Resumed(c, t2) == c
    ensures !c.isRunning ==> Paused(c, t1) == c && Resumed(c, t2) == c
  {
  }

  /** A sequence of updates at the given times: the clock afterwards. */
  function After(c: Clock, config: AnimationConfig, times: seq<int>): Clock
    decreases |times|
  {
    if |times| == 0 then c else After(Updated(c, config, times[0]).clock, config, times[1..])
  }

  /** The values those updates return, in order. */
  function Reports(c: Clock, config: AnimationConfig, times: seq<int>): (r: seq<bool>)
    ensures |r| == |times|
    decreases |times|
  {
    if |times| == 0 then []
    else [Updated(c, config, times[0]).running] + Reports(Updated(c, config, times[0]).clock, config, times[1..])
  }

  /** How many of those updates reach the end of the duration. */
  function Completions(c: Clock, config: AnimationConfig, times: seq<int>): nat
    decreases |times|
  {
    if |times| == 0 then 0
    else (if Completes(c, config, times[0]) then 1 else 0)
         + Completions(Updated(c, config, times[0]).clock, config, times[1..])
  }

  /** With an infinite (negative) repeat count a running clock never stops: every
      update reports true and the count is untouched. */
  lemma {:induction false} InfiniteRepeatNeverStops(c: Clock, config: AnimationConfig, times: seq<int>)
    requires c.isRunning && c.repeatCount < 0
    ensures forall i :: 0 <= i < |times| ==> Reports(c, config, times)[i]
    ensures After(c, config, times).isRunning
    ensures After(c, config, times).repeatCount == c.repeatCount
    decreases |times|
  {
    if |times| > 0 {
      var next := Updated(c, config, times[0]).clock;
      InfiniteRepeatNeverStops(next, config, times[1..]);
    }
  }

  /** A stopped clock stays stopped: updates report false and change nothing. */
  lemma {:induction false} StoppedStaysStopped(c: Clock, config: AnimationConfig, times: seq<int>)
    requires !c.isRunning
    ensures forall i :: 0 <= i < |times| ==> !Reports(c, config, times)[i]
    ensures After(c, config, times) == c
    decreases |times|
  {
    if |times| > 0 {
      StoppedStaysStopped(c, config, times[1..]);
    }
  }

  /** With a finite repeat count n a clock completes its duration once per
      remaining repeat, and the completion after the last repeat stops it: every
      completion either used up a repeat or was the final one. So no run
      completes more than n + 1 times. */
  lemma {:induction false} FiniteRepeatsCounted(c: Clock, config: AnimationConfig, times: seq<int>)
    requires 0 <= c.repeatCount
    ensures var a := After(c, config, times);
      0 <= a.repeatCount <= c.repeatCount
      && Completions(c, config, times)
         == c.repeatCount - a.repeatCount + (if c.isRunning && !a.isRunning then 1 else 0)
    ensures Completions(c, config, times) <= c.repeatCount + 1
    decreases |times|
  {
    if |times| > 0 {
      var next := Updated(c, config, times[0]).clock;
      FiniteRepeatsCounted(next, config, times[1..]);
      if !next.isRunning {
        StoppedStaysStopped(next, config, times[1..]);
      }
    }
  }

  /** The timing offset particle `index` is given on first use, in
      [-timingVariation, timingVariation), or 0 without randomised timings. */
  function TimeOffset(config: AnimationConfig, index: int, env: Env): real
  {
    if config.randomizeTimings then env.rand(index, CH_ANIM_OFFSET) * config.timingVariation * 2.0 - config.timingVariation
    else 0.0
  }

  lemma TimeOffsetBounds(config: AnimationConfig, index: int, env: Env)
    requires IsUnitRng(env.rand) && 0.0 <= config.timingVariation
    ensures -config.timingVariation <= TimeOffset(config, index, env) <= config.timingVariation
    ensures !config.randomizeTimings ==> TimeOffset(config, index, env) == 0.0
  {
    var u := env.rand(index, CH_ANIM_OFFSET);
    var tv := config.timingVariation;
    assert 0.0 <= u < 1.0;
    ScaleNonNegative(0.0, u, tv);
    ScaleNonNegative(u, 1.0, tv);
    assert u * tv * 2.0 == (u * tv) * 2.0;
  }

  /** The per-particle alpha factor, in [0.8, 1.2). */
  function AlphaFactor(index: int, env: Env): real
  {
    0.8 + env.rand(index, CH_ANIM_ALPHA) * 0.4
  }

  /** A per-particle fade factor drawn on `channel`, in [0.9, 1.1). */
  function FadeFactor(index: int, channel: int, env: Env): real
  {
    0.9 + env.rand(index, channel) * 0.2
  }

  /** The per-particle scale factor, in [0.85, 1.15). */
  function ScaleFactor(index: int, env: Env): real
  {
    0.85 + env.rand(index, CH_ANIM_SCALE) * 0.3
  }

  /** The per-particle oscillation phase, in [0, 2 pi). */
  function OscillationPhase(index: int, env: Env): real
  {
    env.rand(index, CH_ANIM_PHASE) * 2.0 * PI
  }

  lemma FactorsInRange(index: int, channel: int, env: Env)
    requires IsUnitRng(env.rand)
    ensures 0.8 <= AlphaFactor(index, env) < 1.2
    ensures 0.9 <= FadeFactor(index, channel, env) < 1.1
    ensures 0.85 <= ScaleFactor(index, env) < 1.15
    ensures 0.0 <= OscillationPhase(index, env) < 2.0 * PI
  {
    assert 0.0 <= env.rand(index, CH_ANIM_ALPHA) < 1.0;
    assert 0.0 <= env.rand(index, channel) < 1.0;
    assert 0.0 <= env.rand(index, CH_ANIM_SCALE) < 1.0;
    assert 0.0 <= env.rand(index, CH_ANIM_PHASE) < 1.0;
  }

  /** The alpha `getParticleAlpha` returns for a particle at `progress`. */
  function ParticleAlphaOf(progress: real, alphaFactor: real, fadeIn: real, fadeOut: real,
                           isDisintegration: bool): (a: real)
    ensures 0.0 <= a <= 1.0
  {
    if isDisintegration then Clamp((1.0 - progress * fadeOut) * alphaFactor, 0.0, 1.0)
    else Clamp(progress * fadeIn * alphaFactor, 0.0, 1.0)
  }

  /** With positive factors, a disintegrating particle only fades as its progress
      grows and an assembling one only brightens. */
  lemma ParticleAlphaMonotone(p1: real, p2: real, alphaFactor: real, fadeIn: real, fadeOut: real)
    requires p1 <= p2 && 0.0 < alphaFactor && 0.0 < fadeIn && 0.0 < fadeOut
    ensures ParticleAlphaOf(p2, alphaFactor, fadeIn, fadeOut, true)
            <= ParticleAlphaOf(p1, alphaFactor, fadeIn, fadeOut, true)
    ensures ParticleAlphaOf(p1, alphaFactor, fadeIn, fadeOut, false)
            <= ParticleAlphaOf(p2, alphaFactor, fadeIn, fadeOut, false)
  {
    var out1, out2 := (1.0 - p1 * fadeOut) * alphaFactor, (1.0 - p2 * fadeOut) * alphaFactor;
    var in1, in2 := p1 * fadeIn * alphaFactor, p2 * fadeIn * alphaFactor;
    ScaledOrder(p1, p2, fadeOut, alphaFactor, out1, out2, in1, in2, fadeIn);
    ClampMonotone(out2, out1);
    ClampMonotone(in1, in2);
  }

  lemma ScaledOrder(p1: real, p2: real, fadeOut: real, alphaFactor: real, out1: real, out2: real,
                    in1: real, in2: real, fadeIn: real)
    requires p1 <= p2 && 0.0 < alphaFactor && 0.0 < fadeIn && 0.0 < fadeOut
    requires out1 == (1.0 - p1 * fadeOut) * alphaFactor && out2 == (1.0 - p2 * fadeOut) * alphaFactor
    requires in1 == p1 * fadeIn * alphaFactor && in2 == p2 * fadeIn * alphaFactor
    ensures out2 <= out1 && in1 <= in2
  {
    ScaleNonNegative(p1, p2, fadeOut);
    ScaleNonNegative(1.0 - p2 * fadeOut, 1.0 - p1 * fadeOut, alphaFactor);
    ScaleNonNegative(p1, p2, fadeIn);
    ScaleNonNegative(p1 * fadeIn, p2 * fadeIn, alphaFactor);
  }

  lemma ClampMonotone(a: real, b: real)
    requires a <= b
    ensures Clamp(a, 0.0, 1.0) <= Clamp(b, 0.0, 1.0)
  {
  }

  /** The scale `getParticleScale` returns for a particle at `progress`. */
  function ParticleScaleOf(progress: real, scaleFactor: real, isDisintegration: bool): real
  {
    if isDisintegration then (1.0 - progress * 0.3) * scaleFactor
    else (0.5 + progress * 0.5) * scaleFactor
  }

  /** A disintegrating particle's scale goes from its factor down to 70% of it, an
      assembling one's from 50% up to its factor; with the factor in [0.85, 1.15)
      both stay in [0.425, 1.15). */
  lemma ParticleScaleBounds(progress: real, scaleFactor: real)
    requires 0.0 <= progress <= 1.0 && 0.85 <= scaleFactor < 1.15
    ensures 0.7 * scaleFactor <= ParticleScaleOf(progress, scaleFactor, true) <= scaleFactor
    ensures 0.5 * scaleFactor <= ParticleScaleOf(progress, scaleFactor, false) <= scaleFactor
    ensures 0.595 <= ParticleScaleOf(progress, scaleFactor, true) < 1.15
    ensures 0.425 <= ParticleScaleOf(progress, scaleFactor, false) < 1.15
  {
    ScaleNonNegative(0.7, 1.0 - progress * 0.3, scaleFactor);
    ScaleNonNegative(1.0 - progress * 0.3, 1.0, scaleFactor);
    ScaleNonNegative(0.5, 0.5 + progress * 0.5, scaleFactor);
    ScaleNonNegative(0.5 + progress * 0.5, 1.0, scaleFactor);
  }

  /** `getOrPut(key) { value }` on a map. */
  function GetOrPut<V>(m: map<int, V>, key: int, value: V): (r: map<int, V>)
    ensures key in r
    ensures key in m ==> r == m
    ensures key !in m ==> r == m[key := value]
  {
    if key in m then m else m[key := value]
  }

  class AnimationController {
    const config: AnimationConfig

    var startTime: int
    var lastUpdateTime: int
    var pauseStartTime: int
    var totalPausedTime: int
    var isRunning: bool
    var isPaused: bool
    var rawProgress: real
    var easedProgress: real
    /** `config.repeatCount`, which the source decrements in the shared config
        object; here it is the controller's own copy. */
    var repeatCount: int

    var particleTimeOffsets: map<int, real>
    var particleAlphaFactors: map<int, real>
    var particleScaleFactors: map<int, real>
    var particleFadeInFactors: map<int, real>
    var particleFadeOutFactors: map<int, real>
    var oscillationPhases: map<int, real>

    /** The timing fields as one value. */
    function Timing(): Clock
      reads this
    {
      Clock(startTime, lastUpdateTime, pauseStartTime, totalPausedTime, isRunning, isPaused,
            rawProgress, easedProgress, repeatCount)
    }

    predicate Valid()
      reads this
    {
      Coherent(Timing())
    }

    constructor(config: AnimationConfig)
      ensures this.config == config
      ensures Timing() == Clock(0, 0, 0, 0, false, false, 0.0, 0.0, config.repeatCount)
      ensures particleTimeOffsets == map[] && particleAlphaFactors == map[] && particleScaleFactors == map[]
      ensures particleFadeInFactors == map[] && particleFadeOutFactors == map[] && oscillationPhases == map[]
      ensures Valid()
    {
      this.config := config;
      startTime, lastUpdateTime, pauseStartTime, totalPausedTime := 0, 0, 0, 0;
      isRunning, isPaused := false, false;
      rawProgress, easedProgress := 0.0, 0.0;
      repeatCount := config.repeatCount;
      particleTimeOffsets, particleAlphaFactors, particleScaleFactors := map[], map[], map[];
      particleFadeInFactors, particleFadeOutFactors, oscillationPhases := map[], map[], map[];
    }

    /** `start()` at clock reading `now`: restarts the clock and forgets every
        per-particle draw. */
    method Start(now: int)
      requires Valid()
      modifies this
      ensures Valid()
      ensures Timing() == Started(old(Timing()), now)
      ensures particleTimeOffsets == map[] && particleAlphaFactors == map[] && particleScaleFactors == map[]
      ensures particleFadeInFactors == map[] && particleFadeOutFactors == map[] && oscillationPhases == map[]
    {
      ghost var before := Timing();
      startTime := now;
      lastUpdateTime := startTime;
      isRunning := true;
      isPaused := false;
      rawProgress := 0.0;
      easedProgress := 0.0;
      totalPausedTime := 0;
      assert Timing() == Started(before, now);
      ForgetDraws();
    }

    /** The six `clear()` calls of `start()`. */
    method ForgetDraws()
      modifies this`particleTimeOffsets, this`particleAlphaFactors, this`particleScaleFactors,
               this`particleFadeInFactors, this`particleFadeOutFactors, this`oscillationPhases
      ensures particleTimeOffsets == map[] && particleAlphaFactors == map[] && particleScaleFactors == map[]
      ensures particleFadeInFactors == map[] && particleFadeOutFactors == map[] && oscillationPhases == map[]
    {
      particleTimeOffsets := map[];
      particleAlphaFactors := map[];
      particleScaleFactors := map[];
      particleFadeInFactors := map[];
      particleFadeOutFactors := map[];
      oscillationPhases := map[];
    }

    /** `pause()` at clock reading `now`. */
    method Pause(now: int)
      requires Valid()
      modifies this`isPaused, this`pauseStartTime
      ensures Valid()
      ensures Timing() == Paused(old(Timing()), now)
    {
      if isRunning && !isPaused {
        isPaused := true;
        pauseStartTime := now;
      }
    }

    /** `resume()` at clock reading `now`. */
    method Resume(now: int)
      requires Valid()
      modifies this`totalPausedTime, this`isPaused, this`lastUpdateTime
      ensures Valid()
      ensures Timing() == Resumed(old(Timing()), now)
    {
      if isRunning && isPaused {
        totalPausedTime := totalPausedTime + (now - pauseStartTime);
        isPaused := false;
        lastUpdateTime := now;
      }
    }

    /** `update(currentTime)`: advances the progress, repeats or stops, and says
        whether the animation is still running. */
    method Update(currentTime: int) returns (running: bool)
      requires Valid()
      modifies this`startTime, this`lastUpdateTime, this`isRunning, this`rawProgress, this`easedProgress,
               this`repeatCount
      ensures Valid()
      ensures Step(Timing(), running) == Updated(old(Timing()), config, currentTime)
      ensures running == isRunning
    {
      if !isRunning {
        return false;
      }
      if isPaused {
        return true;
      }
      lastUpdateTime := currentTime;
      var effectiveElapsedTime := currentTime - startTime - totalPausedTime;
      var duration := config.duration;
      if effectiveElapsedTime >= duration {
        if repeatCount != 0 {
          if repeatCount > 0 {
            repeatCount := repeatCount - 1;
          }
          startTime := currentTime - totalPausedTime;
          return true;
        } else {
          isRunning := false;
          rawProgress := 1.0;
          easedProgress := 1.0;
          return false;
        }
      }
      rawProgress := RawProgressAt(effectiveElapsedTime, duration);
      easedProgress := config.easing(rawProgress);
      return true;
    }

    /** `getDeltaTime(currentTime)`: seconds since the last update, capped at 0.05. */
    function DeltaTime(currentTime: int): (dt: real)
      reads this
      ensures dt <= 0.05
      ensures dt == 0.05 || dt * 1000.0 == (currentTime - lastUpdateTime) as real
      ensures (currentTime - lastUpdateTime) as real / 1000.0 <= 0.05 ==> dt * 1000.0 == (currentTime - lastUpdateTime) as real
    {
      Min(0.05, (currentTime - lastUpdateTime) as real / 1000.0)
    }

    /** `reset()`: stops and zeroes the progress, keeping the per-particle draws. */
    method Reset()
      requires Valid()
      modifies this`isRunning, this`isPaused, this`rawProgress, this`easedProgress
      ensures Valid()
      ensures Timing() == ResetClock(old(Timing()))
    {
      isRunning := false;
      isPaused := false;
      rawProgress := 0.0;
      easedProgress := 0.0;
    }

    /** `getParticleProgress(index)`: the eased progress shifted by the particle's
        timing offset, which is drawn on first use and kept afterwards. */
    method GetParticleProgress(index: int, env: Env) returns (progress: real)
      modifies this`particleTimeOffsets
      ensures particleTimeOffsets == GetOrPut(old(particleTimeOffsets), index, TimeOffset(config, index, env))
      ensures progress == Clamp(easedProgress + particleTimeOffsets[index], 0.0, 1.0)
      ensures 0.0 <= progress <= 1.0
    {
      if index !in particleTimeOffsets {
        particleTimeOffsets := particleTimeOffsets[index := TimeOffset(config, index, env)];
      }
      progress := Clamp(easedProgress + particleTimeOffsets[index], 0.0, 1.0);
    }

    /** `getParticleAlpha(index, isDisintegration)`. */
    method GetParticleAlpha(index: int, isDisintegration: bool, env: Env) returns (alpha: real)
      modifies this`particleTimeOffsets, this`particleAlphaFactors, this`particleFadeInFactors,
               this`particleFadeOutFactors
      ensures particleTimeOffsets == GetOrPut(old(particleTimeOffsets), index, TimeOffset(config, index, env))
      ensures particleAlphaFactors == GetOrPut(old(particleAlphaFactors), index, AlphaFactor(index, env))
      ensures particleFadeInFactors == GetOrPut(old(particleFadeInFactors), index, FadeFactor(index, CH_ANIM_FADE_IN, env))
      ensures particleFadeOutFactors == GetOrPut(old(particleFadeOutFactors), index, FadeFactor(index, CH_ANIM_FADE_OUT, env))
      ensures alpha == ParticleAlphaOf(Clamp(easedProgress + particleTimeOffsets[index], 0.0, 1.0),
                                       particleAlphaFactors[index], particleFadeInFactors[index],
                                       particleFadeOutFactors[index], isDisintegration)
      ensures 0.0 <= alpha <= 1.0
    {
      var particleProgress := GetParticleProgress(index, env);
      if index !in particleAlphaFactors {
        particleAlphaFactors := particleAlphaFactors[index := AlphaFactor(index, env)];
      }
      var alphaFactor := particleAlphaFactors[index];
      if index !in particleFadeInFactors {
        particleFadeInFactors := particleFadeInFactors[index := FadeFactor(index, CH_ANIM_FADE_IN, env)];
      }
      var fadeInFactor := particleFadeInFactors[index];
      if index !in particleFadeOutFactors {
        particleFadeOutFactors := particleFadeOutFactors[index := FadeFactor(index, CH_ANIM_FADE_OUT, env)];
      }
      var fadeOutFactor := particleFadeOutFactors[index];
      alpha := ParticleAlphaOf(particleProgress, alphaFactor, fadeInFactor, fadeOutFactor, isDisintegration);
    }

    /** `getParticleScale(index, isDisintegration)`. */
    method GetParticleScale(index: int, isDisintegration: bool, env: Env) returns (scale: real)
      modifies this`particleTimeOffsets, this`particleScaleFactors
      ensures particleTimeOffsets == GetOrPut(old(particleTimeOffsets), index, TimeOffset(config, index, env))
      ensures particleScaleFactors == GetOrPut(old(particleScaleFactors), index, ScaleFactor(index, env))
      ensures scale == ParticleScaleOf(Clamp(easedProgress + particleTimeOffsets[index], 0.0, 1.0),
                                       particleScaleFactors[index], isDisintegration)
    {
      var particleProgress := GetParticleProgress(index, env);
      if index !in particleScaleFactors {
        particleScaleFactors := particleScaleFactors[index := ScaleFactor(index, env)];
      }
      var scaleFactor := particleScaleFactors[index];
      scale := ParticleScaleOf(particleProgress, scaleFactor, isDisintegration);
    }

    /** `getParticleOscillation(index, frequency)`: a sine wave over the raw
        progress, shifted by the particle's phase. */
    method GetParticleOscillation(index: int, frequency: real, env: Env) returns (value: real)
      modifies this`oscillationPhases
      ensures oscillationPhases == GetOrPut(old(oscillationPhases), index, OscillationPhase(index, env))
      ensures value == env.sin(rawProgress * frequency * PI * 2.0 + oscillationPhases[index])
      ensures env.Valid() ==> -1.0 <= value <= 1.0
    {
      if index !in oscillationPhases {
        oscillationPhases := oscillationPhases[index := OscillationPhase(index, env)];
      }
      var phase := oscillationPhases[index];
      value := env.sin(rawProgress * frequency * PI * 2.0 + phase);
    }
  }

  /** What the animation controller tells a progress-driven physics behaviour
      about one particle: its progress, the oscillation the behaviour adds, and
      the alpha and scale it adopts. `None` where there is no controller or the
      controller's config does not ask for that effect, so the behaviour falls
      back to its own formula. */
  datatype Guidance = Guidance(progress: Option<real>, wave: Option<real>, alpha: Option<real>, scale: Option<real>)

  const NO_GUIDANCE: Guidance := Guidance(None, None, None, None)

  /** The oscillation a behaviour adds: the controller's sine wave at
      `frequency` with the particle's phase, scaled by `strength`. */
  function Swing(rawProgress: real, frequency: real, phase: real, strength: real, env: Env): real
  {
    env.sin(rawProgress * frequency * PI * 2.0 + phase) * strength
  }

  /** The per-particle draws controller `c` holds for `index` once it has been
      consulted; `oscillates` says whether the behaviour asked for an oscillation. */
  ghost predicate HasDraws(c: AnimationController, index: int, oscillates: bool)
    reads c
  {
    && index in c.particleTimeOffsets
    && (oscillates && c.config.addOscillation ==> index in c.oscillationPhases)
    && (c.config.randomizeAlpha ==>
          index in c.particleAlphaFactors && index in c.particleFadeInFactors && index in c.particleFadeOutFactors)
    && (c.config.randomizeScale ==> index in c.particleScaleFactors)
  }

  /** The guidance controller `c` gives for particle `index`, read off its state:
      the clamped shifted progress, the oscillation at `frequency` scaled by the
      controller's strength, and its alpha and scale for the given effect. */
  ghost function GuidanceOf(c: AnimationController?, index: int, frequency: real, oscillates: bool,
                            isDisintegration: bool, env: Env): Guidance
    reads c
    requires c != null ==> HasDraws(c, index, oscillates)
  {
    if c == null then NO_GUIDANCE
    else
      var progress := Clamp(c.easedProgress + c.particleTimeOffsets[index], 0.0, 1.0);
      Guidance(Some(progress),
              if oscillates && c.config.addOscillation
              then Some(Swing(c.rawProgress, frequency, c.oscillationPhases[index], c.config.oscillationStrength, env))
              else None,
              if c.config.randomizeAlpha
              then Some(ParticleAlphaOf(progress, c.particleAlphaFactors[index], c.particleFadeInFactors[index],
                                        c.particleFadeOutFactors[index], isDisintegration))
              else None,
              if c.config.randomizeScale
              then Some(ParticleScaleOf(progress, c.particleScaleFactors[index], isDisintegration))
              else None)
  }

  /** Consulting the controller about `index` only adds that particle's draws,
      keeping those already present. */
  twostate predicate Drawn(c: AnimationController, index: int, oscillates: bool, env: Env)
    reads c
  {
    && c.particleTimeOffsets == GetOrPut(old(c.particleTimeOffsets), index, TimeOffset(c.config, index, env))
    && c.oscillationPhases == (if oscillates && c.config.addOscillation
                               then GetOrPut(old(c.oscillationPhases), index, OscillationPhase(index, env))
                               else old(c.oscillationPhases))
    && c.particleAlphaFactors == (if c.config.randomizeAlpha
                                  then GetOrPut(old(c.particleAlphaFactors), index, AlphaFactor(index, env))
                                  else old(c.particleAlphaFactors))
    && c.particleFadeInFactors == (if c.config.randomizeAlpha
                                   then GetOrPut(old(c.particleFadeInFactors), index, FadeFactor(index, CH_ANIM_FADE_IN, env))
                                   else old(c.particleFadeInFactors))
    && c.particleFadeOutFactors == (if c.config.randomizeAlpha
                                    then GetOrPut(old(c.particleFadeOutFactors), index, FadeFactor(index, CH_ANIM_FADE_OUT, env))
                                    else old(c.particleFadeOutFactors))
    && c.particleScaleFactors == (if c.config.randomizeScale
                                  then GetOrPut(old(c.particleScaleFactors), index, ScaleFactor(index, env))
                                  else old(c.particleScaleFactors))
  }

  /** The getter calls a physics behaviour makes on its controller, when it has
      one, for particle `index`, in the behaviour's order: the progress, then, when
      `oscillates` and the controller's config adds oscillation, the oscillation
      at `frequency`, then alpha and scale when the config randomises them. */
  method Consult(c: AnimationController, index: int, frequency: real, oscillates: bool,
                 isDisintegration: bool, env: Env) returns (r: Guidance)
    modifies c`particleTimeOffsets, c`oscillationPhases, c`particleAlphaFactors, c`particleFadeInFactors,
             c`particleFadeOutFactors, c`particleScaleFactors
    ensures Drawn(c, index, oscillates, env) && HasDraws(c, index, oscillates)
    ensures r == GuidanceOf(c, index, frequency, oscillates, isDisintegration, env)
  {
    var progress, wave := ConsultMotion(c, index, frequency, oscillates, env);
    var alpha, scale := ConsultLook(c, index, isDisintegration, env);
    r := Guidance(Some(progress), wave, alpha, scale);
  }

  /** A behaviour's consultation of its optional controller: no guidance
      without one; otherwise `Consult`, which leaves the clock alone. */
  method Guide(c: AnimationController?, index: int, frequency: real, oscillates: bool,
               isDisintegration: bool, env: Env) returns (r: Guidance)
    modifies c
    ensures c != null ==> c.Timing() == old(c.Timing())
    ensures c != null ==> Drawn(c, index, oscillates, env) && HasDraws(c, index, oscillates)
    ensures r == GuidanceOf(c, index, frequency, oscillates, isDisintegration, env)
  {
    r := NO_GUIDANCE;
    if c != null {
      r := Consult(c, index, frequency, oscillates, isDisintegration, env);
    }
  }

  method ConsultMotion(c: AnimationController, index: int, frequency: real, oscillates: bool, env: Env)
    returns (progress: real, wave: Option<real>)
    modifies c`particleTimeOffsets, c`oscillationPhases
    ensures c.particleTimeOffsets == GetOrPut(old(c.particleTimeOffsets), index, TimeOffset(c.config, index, env))
    ensures c.oscillationPhases == (if oscillates && c.config.addOscillation
                                    then GetOrPut(old(c.oscillationPhases), index, OscillationPhase(index, env))
                                    else old(c.oscillationPhases))
    ensures progress == Clamp(c.easedProgress + c.particleTimeOffsets[index], 0.0, 1.0)
    ensures wave == if oscillates && c.config.addOscillation
                    then Some(Swing(c.rawProgress, frequency, c.oscillationPhases[index], c.config.oscillationStrength, env))
                    else None
  {
    progress := c.GetParticleProgress(index, env);
    if !(oscillates && c.config.addOscillation) {
      return progress, None;
    }
    var oscillation := c.GetParticleOscillation(index, frequency, env);
    var scaled := oscillation * c.config.oscillationStrength;
    assert scaled == Swing(c.rawProgress, frequency, c.oscillationPhases[index], c.config.oscillationStrength, env);
    wave := Some(scaled);
  }

  method ConsultLook(c: AnimationController, index: int, isDisintegration: bool, env: Env)
    returns (alpha: Option<real>, scale: Option<real>)
    requires index in c.particleTimeOffsets
    modifies c`particleTimeOffsets, c`particleAlphaFactors, c`particleFadeInFactors, c`particleFadeOutFactors,
             c`particleScaleFactors
    ensures c.particleTimeOffsets == old(c.particleTimeOffsets)
    ensures c.particleAlphaFactors == (if c.config.randomizeAlpha
                                       then GetOrPut(old(c.particleAlphaFactors), index, AlphaFactor(index, env))
                                       else old(c.particleAlphaFactors))
    ensures c.particleFadeInFactors == (if c.config.randomizeAlpha
                                        then GetOrPut(old(c.particleFadeInFactors), index, FadeFactor(index, CH_ANIM_FADE_IN, env))
                                        else old(c.particleFadeInFactors))
    ensures c.particleFadeOutFactors == (if c.config.randomizeAlpha
                                         then GetOrPut(old(c.particleFadeOutFactors), index, FadeFactor(index, CH_ANIM_FADE_OUT, env))
                                         else old(c.particleFadeOutFactors))
    ensures c.particleScaleFactors == (if c.config.randomizeScale
                                       then GetOrPut(old(c.particleScaleFactors), index, ScaleFactor(index, env))
                                       else old(c.particleScaleFactors))
    ensures var progress := Clamp(c.easedProgress + c.particleTimeOffsets[index], 0.0, 1.0);
      && alpha == (if c.config.randomizeAlpha
                   then Some(ParticleAlphaOf(progress, c.particleAlphaFactors[index], c.particleFadeInFactors[index],
                                             c.particleFadeOutFactors[index], isDisintegration))
                   else None)
      && scale == (if c.config.randomizeScale
                   then Some(ParticleScaleOf(progress, c.particleScaleFactors[index], isDisintegration))
                   else None)
  {
    alpha, scale := None, None;
    if c.config.randomizeAlpha {
      var a := c.GetParticleAlpha(index, isDisintegration, env);
      alpha := Some(a);
    }
    if c.config.randomizeScale {
      var s := c.GetParticleScale(index, isDisintegration, env);
      scale := Some(s);
    }
  }
}
