/** The lifecycle of one effect (ParticlizeController.kt): the caller asks
    for an effect, the controller waits for the content to be captured,
    builds a particle system from it, animates it frame by frame, and tears
    everything down when the system reports that nothing is left to draw.
    Every coroutine step runs here as one atomic transition; clock readings
    are parameters. */
module Controller {
  import opened Numeric
  import Config
  import opened Pixels
  import opened Environment
  import System

  /** Lines 270-275. */
  datatype State = NONE | CAPTURING | RUNNING | DESTROYED

  /** The identity of a caller's completion function. */
  type CallbackId = nat

  /** The measured size of the composable. */
  datatype Size = Size(width: real, height: real)

  /** The configurations a particle system is built from. */
  datatype Setup = Setup(particle: Config.ParticleConfig, emission: Config.EmissionConfig,
                         animation: Config.AnimationConfig, disintegration: Config.DisintegrationConfig,
                         assembly: Config.AssemblyConfig)
  {
    /** What building a particle system needs: a non-negative particle count
        and a positive explosion duration. */
    predicate Buildable()
    {
      emission.particleCount >= 0 && disintegration.explosionDuration > 0.0
    }
  }

  /** Lines 66-71, without the Android context. */
  datatype StartParams = StartParams(effect: Config.ParticleEffect, config: Setup, onComplete: CallbackId)

  /** Everything the controller holds, with the particle system reduced to
      whether there is one and the animation job to whether it is live. */
  datatype Fields = Fields(state: State, needsRedraw: bool, hasSystem: bool, componentSize: Option<Size>,
                       currentEffect: Option<Config.ParticleEffect>, onEffectComplete: Option<CallbackId>,
                       contentBitmap: Option<Bitmap>, pendingStartParams: Option<StartParams>,
                       effectConfig: Setup, looping: bool)

  /** A freshly constructed controller (lines 27-57). */
  function Initial(config: Setup): (r: Fields)
    ensures r.state == NONE && !r.hasSystem && !r.looping && r.pendingStartParams == None
  {
    Fields(NONE, false, false, None, None, None, None, None, config, false)
  }

  /** `needsCapture()` (lines 214-216). */
  predicate NeedsCapture(v: Fields)
  {
    v.state == CAPTURING && v.pendingStartParams.Some?
  }

  /** `isRunning()` (line 226). */
  predicate IsRunning(v: Fields)
  {
    v.state == RUNNING
  }

  /** `hasEffectStarted()` (line 221): despite its name, true once the
      effect is over. */
  predicate HasEffectStarted(v: Fields)
  {
    v.state == DESTROYED
  }

  /** What holds between any two transitions: an idle or capturing controller
      holds no system, effect, callback or content; a capturing one holds the
      request it waits on; a running one holds all of them and its animation
      job; a destroyed one holds nothing. */
  predicate Consistent(v: Fields)
  {
    && (v.looping <==> v.state == RUNNING)
    && (v.state == CAPTURING ==> v.pendingStartParams.Some?)
    && (v.state == RUNNING ==>
          v.hasSystem && v.currentEffect.Some? && v.onEffectComplete.Some? && v.contentBitmap.Some?)
    && (v.state != RUNNING ==>
          !v.hasSystem && v.currentEffect == None && v.onEffectComplete == None && v.contentBitmap == None)
  }

  /** `start(...)` (lines 124-150): the request and its configuration are
      always recorded; only an idle controller moves on, to capturing, and
      asks for a redraw so the content gets captured. */
  function Started(v: Fields, p: StartParams): (r: Fields)
    ensures r.pendingStartParams == Some(p) && r.effectConfig == p.config
    ensures r.state != v.state <==> v.state == NONE
    ensures r.needsRedraw != v.needsRedraw <==> v.state == NONE
    ensures v.state == NONE ==> r.state == CAPTURING
    ensures r.hasSystem == v.hasSystem && r.currentEffect == v.currentEffect && r.looping == v.looping
    ensures r.onEffectComplete == v.onEffectComplete && r.contentBitmap == v.contentBitmap
    ensures r.componentSize == v.componentSize
  {
    var recorded := v.(effectConfig := p.config, pendingStartParams := Some(p));
    if v.state != NONE then recorded
    else recorded.(state := CAPTURING, needsRedraw := !v.needsRedraw)
  }

  /** `onContentCaptured(bitmap)` (lines 84-119) followed by the coroutine it
      launches: unless the controller waits on a request nothing happens;
      otherwise the content, a new system, the effect and the callback are
      stored, and once particles exist the controller runs its animation job
      with the request consumed. */
  function Captured(v: Fields, bitmap: Bitmap): (r: Fields)
    ensures !NeedsCapture(v) ==> r == v
    ensures NeedsCapture(v) ==>
      && r.state == RUNNING && r.looping && r.pendingStartParams == None && r.hasSystem
      && r.contentBitmap == Some(bitmap)
      && r.currentEffect == Some(v.pendingStartParams.value.effect)
      && r.onEffectComplete == Some(v.pendingStartParams.value.onComplete)
      && r.needsRedraw == v.needsRedraw && r.effectConfig == v.effectConfig
      && r.componentSize == v.componentSize
  {
    if !NeedsCapture(v) then v
    else
      var p := v.pendingStartParams.value;
      v.(contentBitmap := Some(bitmap), hasSystem := true, currentEffect := Some(p.effect),
         onEffectComplete := Some(p.onComplete), state := RUNNING, looping := true, pendingStartParams := None)
  }

  /** `destroy()` (lines 246-257): the job stops, the state is final and every
      nullable field is cleared; the redraw flag and configuration stay. */
  function Destroyed(v: Fields): (r: Fields)
    ensures HasEffectStarted(r) && !r.looping && !r.hasSystem
    ensures r.componentSize == None && r.currentEffect == None && r.onEffectComplete == None
    ensures r.contentBitmap == None && r.pendingStartParams == None
    ensures r.needsRedraw == v.needsRedraw && r.effectConfig == v.effectConfig
  {
    v.(state := DESTROYED, hasSystem := false, componentSize := None, currentEffect := None,
       onEffectComplete := None, contentBitmap := None, pendingStartParams := None, looping := false)
  }

  /** A frame after which the system still animates (lines 180-183): only the
      redraw flag flips. */
  function Redrawn(v: Fields): (r: Fields)
    ensures r.needsRedraw == !v.needsRedraw
    ensures r.(needsRedraw := v.needsRedraw) == v
  {
    v.(needsRedraw := !v.needsRedraw)
  }

  /** The redraw flag after `n` frames that kept animating. */
  function Toggled(v: Fields, n: nat): (r: Fields)
    ensures r.needsRedraw == (if n % 2 == 0 then v.needsRedraw else !v.needsRedraw)
    ensures r.(needsRedraw := v.needsRedraw) == v
  {
    if n == 0 then v else Redrawn(Toggled(v, n - 1))
  }

  /** The completion branch as written (lines 171-178): `destroy()` runs
      first and clears `onEffectComplete`, so the call that follows finds no
      callback to invoke. */
  function CompletedAsWritten(v: Fields): (r: (Fields, Option<CallbackId>))
    ensures r.0 == Destroyed(v)
    ensures r.1 == None
  {
    var after := Destroyed(v);
    (after, after.onEffectComplete)
  }

  /** The completion branch as intended: the callback registered when the
      effect began is taken before `destroy()` clears it, and invoked after. */
  function Completed(v: Fields): (r: (Fields, Option<CallbackId>))
    ensures r.0 == Destroyed(v)
    ensures r.1 == v.onEffectComplete
  {
    var callback := v.onEffectComplete;
    (Destroyed(v), callback)
  }

  /** A new controller is consistent, and every transition keeps it so. */
  lemma TransitionsKeepConsistent(v: Fields, p: StartParams, bitmap: Bitmap, n: nat)
    ensures Consistent(Initial(p.config))
    ensures Consistent(v) ==> Consistent(Started(v, p))
    ensures Consistent(v) ==> Consistent(Captured(v, bitmap))
    ensures Consistent(Destroyed(v))
    ensures Consistent(v) ==> Consistent(Toggled(v, n))
    ensures Consistent(Completed(v).0)
  {
  }

  /** Once destroyed, no transition leaves DESTROYED: a later request is
      recorded but never captured, and nothing starts animating again. */
  lemma DestroyedIsTerminal(v: Fields, p: StartParams, bitmap: Bitmap, n: nat)
    requires HasEffectStarted(v)
    ensures HasEffectStarted(Started(v, p)) && !NeedsCapture(Started(v, p))
    ensures HasEffectStarted(Captured(v, bitmap))
    ensures HasEffectStarted(Destroyed(v))
    ensures HasEffectStarted(Toggled(v, n))
    ensures HasEffectStarted(Completed(v).0)
  {
  }

  /** `destroy()` twice is `destroy()` once. */
  lemma DestroyIdempotent(v: Fields)
    ensures Destroyed(Destroyed(v)) == Destroyed(v)
  {
  }

  /** A captured frame is used exactly when the controller needs one. */
  lemma CaptureAcceptedIffNeeded(v: Fields, bitmap: Bitmap)
    ensures Captured(v, bitmap) != v <==> NeedsCapture(v)
  {
  }

  /** After `start`, content is awaited exactly when the controller was idle
      or already awaiting content. */
  lemma StartAwaitsCapture(v: Fields, p: StartParams)
    ensures NeedsCapture(Started(v, p)) <==> v.state == NONE || v.state == CAPTURING
  {
  }

  /** A consistent controller is running exactly while its animation job is
      live, and at most one of the three queries holds. */
  lemma QueriesAgree(v: Fields)
    requires Consistent(v)
    ensures IsRunning(v) <==> v.looping
    ensures IsRunning(v) ==> !NeedsCapture(v) && !HasEffectStarted(v)
    ensures NeedsCapture(v) ==> !HasEffectStarted(v) && !v.hasSystem
    ensures HasEffectStarted(v) ==> !v.hasSystem && v.onEffectComplete == None
  {
  }

  /** With the completion branch as written, an effect that is started,
      captured and then finishes never calls its caller back. */
  lemma {:induction false} CallbackLostAsWritten(config: Setup, p: StartParams, bitmap: Bitmap, n: nat)
    ensures var running := Toggled(Captured(Started(Initial(config), p), bitmap), n);
            && running.onEffectComplete == Some(p.onComplete)
            && CompletedAsWritten(running).1 == None
  {
    var running := Captured(Started(Initial(config), p), bitmap);
    assert running.onEffectComplete == Some(p.onComplete);
    ToggledKeepsCallback(running, n);
  }

  /** With the intended completion branch, that same effect calls back
      exactly the function given to `start`, after the controller is torn
      down. */
  lemma {:induction false} StartedEffectCallsBack(config: Setup, p: StartParams, bitmap: Bitmap, n: nat)
    ensures var done := Completed(Toggled(Captured(Started(Initial(config), p), bitmap), n));
            && done.1 == Some(p.onComplete)
            && HasEffectStarted(done.0) && done.0.onEffectComplete == None
  {
    var running := Captured(Started(Initial(config), p), bitmap);
    assert running.onEffectComplete == Some(p.onComplete);
    ToggledKeepsCallback(running, n);
  }

  /** Frames that keep animating leave the callback in place. */
  lemma {:induction false} ToggledKeepsCallback(v: Fields, n: nat)
    ensures Toggled(v, n).onEffectComplete == v.onEffectComplete
  {
    assert Toggled(v, n).(needsRedraw := v.needsRedraw) == v;
  }

  /** The particle system `system` was built from `setup` and has generated
      the particles of `bitmap` for `effect`, its clock started at `now`. */
  ghost predicate GeneratedFor(system: System.ParticleSystem, setup: Setup, effect: Config.ParticleEffect,
                               bitmap: Bitmap, now: int, env: Env)
    reads system.Footprint()
  {
    && system.Valid() && bitmap.Valid() && env.Valid()
    && system.particleConfig == setup.particle && system.emissionConfig == setup.emission
    && system.animationConfig == setup.animation
    && system.disintegrationPhysics.config == setup.disintegration
    && system.assemblyPhysics.config == setup.assembly
    && system.currentEffect == Some(effect)
    && system.contentWidth == bitmap.width && system.contentHeight == bitmap.height
    && (exists before :: system.Generated(before, bitmap, effect, env))
    && system.animationController.startTime == now && system.animationController.lastUpdateTime == now
    && system.animationController.isRunning && !system.animationController.isPaused
    && system.animationController.rawProgress == 0.0
  }

  class ParticlizeController {
    var state: State
    var needsRedraw: bool
    var particleSystem: System.ParticleSystem?
    var componentSize: Option<Size>
    var currentEffect: Option<Config.ParticleEffect>
    var onEffectComplete: Option<CallbackId>
    var contentBitmap: Option<Bitmap>
    var pendingStartParams: Option<StartParams>
    var effectConfig: Setup
    /** Whether `animationJob` is live. */
    var looping: bool

    function View(): Fields
      reads this
    {
      Fields(state, needsRedraw, particleSystem != null, componentSize, currentEffect, onEffectComplete,
           contentBitmap, pendingStartParams, effectConfig, looping)
    }

    /** The objects of the particle system the controller holds. */
    ghost function SystemObjects(): set<object>
      reads this
    {
      if particleSystem == null then {} else particleSystem.Footprint()
    }

    /** The controller is consistent, any request it holds can be built, and
        the system it holds is well formed and animates the current effect. */
    ghost predicate Valid()
      reads this, SystemObjects()
    {
      && Consistent(View())
      && (pendingStartParams.Some? ==> pendingStartParams.value.config.Buildable())
      && (particleSystem != null ==> particleSystem.Valid() && particleSystem.currentEffect == currentEffect)
    }

    /** Lines 27-57, with the default configuration passed in. */
    constructor(config: Setup)
      ensures Valid() && View() == Initial(config)
    {
      state := NONE;
      needsRedraw := false;
      particleSystem := null;
      componentSize := None;
      currentEffect := None;
      onEffectComplete := None;
      contentBitmap := None;
      pendingStartParams := None;
      effectConfig := config;
      looping := false;
    }

    /** `setConfig` (lines 59-61). */
    method SetConfig(config: Setup)
      requires Valid()
      modifies this`effectConfig
      ensures Valid() && View() == old(View()).(effectConfig := config)
    {
      effectConfig := config;
    }

    /** `start(context, effect, config, onComplete)` (lines 124-150). */
    method Start(effect: Config.ParticleEffect, config: Setup, onComplete: CallbackId)
      requires Valid() && config.Buildable()
      modifies this`effectConfig, this`pendingStartParams, this`state, this`needsRedraw
      ensures Valid() && View() == Started(old(View()), StartParams(effect, config, onComplete))
    {
      effectConfig := config;
      pendingStartParams := Some(StartParams(effect, config, onComplete));
      if state != NONE {
        return;
      }
      state := CAPTURING;
      needsRedraw := !needsRedraw;
    }

    /** `onContentCaptured(bitmap)` (lines 84-119) with the coroutine it
        launches run to the point where the animation loop is started, at
        clock reading `now`. */
    method OnContentCaptured(bitmap: Bitmap, now: int, env: Env)
      requires Valid() && bitmap.Valid() && env.Valid()
      modifies this
      ensures Valid() && View() == Captured(old(View()), bitmap)
      ensures !old(NeedsCapture(View())) ==> particleSystem == old(particleSystem)
      ensures old(NeedsCapture(View())) ==>
        && particleSystem != null && fresh(particleSystem.Footprint())
        && GeneratedFor(particleSystem, old(pendingStartParams.value.config), old(pendingStartParams.value.effect),
                        bitmap, now, env)
    {
      if state != CAPTURING || pendingStartParams == None {
        return;
      }
      var params := pendingStartParams.value;
      var system := Generate(params, bitmap, now, env);
      Install(system, params, bitmap);
    }

    /** Lines 92-106 and 113-117 around the generation: the content, the
        system, the effect and the callback are stored, the controller runs
        its animation job, and the request is consumed. */
    method Install(system: System.ParticleSystem, params: StartParams, bitmap: Bitmap)
      modifies this
      ensures particleSystem == system && contentBitmap == Some(bitmap)
      ensures currentEffect == Some(params.effect) && onEffectComplete == Some(params.onComplete)
      ensures state == RUNNING && looping && pendingStartParams == None
      ensures needsRedraw == old(needsRedraw) && effectConfig == old(effectConfig)
      ensures componentSize == old(componentSize)
    {
      contentBitmap := Some(bitmap);
      particleSystem := system;
      currentEffect := Some(params.effect);
      onEffectComplete := Some(params.onComplete);
      state := RUNNING;
      StartAnimationLoop();
      pendingStartParams := None;
    }

    /** A new particle system for the request `params`, holding the particles
        of `bitmap` (lines 98-102 and 110); it is fresh, so no one else
        sees it while it is being filled. */
    static method Generate(params: StartParams, bitmap: Bitmap, now: int, env: Env)
      returns (system: System.ParticleSystem)
      requires params.config.Buildable() && bitmap.Valid() && env.Valid()
      ensures fresh(system.Footprint())
      ensures GeneratedFor(system, params.config, params.effect, bitmap, now, env)
    {
      system := Build(params.config);
      system.GenerateParticles(bitmap, params.effect, now, env);
    }

    /** A particle system built from `setup` (lines 98-102). */
    static method Build(setup: Setup) returns (system: System.ParticleSystem)
      requires setup.Buildable()
      ensures system.Valid() && fresh(system.Footprint())
      ensures system.particleConfig == setup.particle && system.emissionConfig == setup.emission
      ensures system.animationConfig == setup.animation
      ensures system.disintegrationPhysics.config == setup.disintegration
      ensures system.assemblyPhysics.config == setup.assembly
    {
      system := new System.ParticleSystem(setup.particle, setup.emission, setup.animation, setup.disintegration,
                                          setup.assembly);
    }

    /** `startAnimationLoop` (lines 155-161): any previous job is cancelled
        and a new one is live. */
    method StartAnimationLoop()
      modifies this`looping
      ensures looping
    {
      looping := true;
    }

    /** One pass of the animation loop (lines 165-186) at clock reading
        `currentTime`: the system advances one frame; while it still
        animates the controller asks for a redraw, and once it is done the
        controller is destroyed and the caller's callback, taken before,
        is invoked (the correction of the lost callback finding; as written
        the completion is `CompletedAsWritten` and invokes nothing, see
        `CallbackLostAsWritten`); `continuing` says whether the loop goes on. */
    method Frame(currentTime: int, env: Env) returns (continuing: bool, invoked: Option<CallbackId>)
      requires Valid() && env.Valid() && IsRunning(View())
      modifies this, SystemObjects()
      ensures Valid()
      ensures continuing ==> View() == Redrawn(old(View())) && invoked == None && particleSystem == old(particleSystem)
      ensures !continuing ==> (View(), invoked) == Completed(old(View()))
    {
      var isAnimating := Animate(currentTime, env);
      if !isAnimating {
        invoked := Finish();
        return false, invoked;
      }
      needsRedraw := !needsRedraw;
      continuing, invoked := true, None;
    }

    /** Line 169: the system held advances one frame and says whether it
        still animates; the controller's own fields are untouched. */
    method Animate(currentTime: int, env: Env) returns (isAnimating: bool)
      requires Valid() && env.Valid() && particleSystem != null
      modifies SystemObjects()
      ensures Valid() && View() == old(View()) && particleSystem == old(particleSystem)
    {
      isAnimating := particleSystem.UpdateAnimation(currentTime, env);
    }

    /** Lines 171-178 with the callback taken before `destroy()` clears it, the
        correction of the lost callback finding; as written the completion is
        `CompletedAsWritten` and invokes nothing. */
    method Finish() returns (invoked: Option<CallbackId>)
      requires Valid()
      modifies this
      ensures Valid() && (View(), invoked) == Completed(old(View()))
    {
      var callback := onEffectComplete;
      Destroy();
      invoked := callback;
    }

    /** The animation loop (lines 164-187) over the clock readings `clock`, one
        per frame, until the system stops animating or the readings run out.
        Its final frame uses the corrected completion of `Frame`; as written
        no callback is invoked (`CallbackLostAsWritten`). */
    method AnimationLoop(clock: seq<int>, env: Env) returns (frames: nat, invoked: Option<CallbackId>)
      requires Valid() && env.Valid() && IsRunning(View())
      modifies this, SystemObjects()
      ensures Valid() && frames <= |clock|
      ensures looping ==>
        && frames == |clock| && View() == Toggled(old(View()), frames) && invoked == None
        && particleSystem == old(particleSystem)
      ensures !looping ==> 0 < frames && (View(), invoked) == Completed(Toggled(old(View()), frames - 1))
    {
      frames, invoked := 0, None;
      while frames < |clock| && looping
        invariant Valid() && frames <= |clock|
        invariant looping ==>
          && View() == Toggled(old(View()), frames) && invoked == None && particleSystem == old(particleSystem)
        invariant !looping ==> 0 < frames && (View(), invoked) == Completed(Toggled(old(View()), frames - 1))
        decreases |clock| - frames
      {
        var continuing;
        continuing, invoked := Frame(clock[frames], env);
        frames := frames + 1;
      }
    }

    /** `destroy()` (lines 246-257). */
    method Destroy()
      requires Valid()
      modifies this
      ensures Valid() && View() == Destroyed(old(View())) && particleSystem == null
    {
      looping := false;
      state := DESTROYED;
      particleSystem := null;
      componentSize := None;
      currentEffect := None;
      onEffectComplete := None;
      contentBitmap := None;
      pendingStartParams := None;
    }

    /** `cleanup()` (lines 262-265) without cancelling the coroutine scope. */
    method Cleanup()
      requires Valid()
      modifies this
      ensures Valid() && View() == Destroyed(old(View())) && particleSystem == null
    {
      Destroy();
    }
  }
}
