/**
 * The eye-dome-lighting filter of the qEDL plugin: the render targets and
 * shader programs it owns, their allocation and release, the per-frame
 * sequence of passes, and the selection of result textures.
 *
 * Allocations the filter cannot see into (frame-buffer objects, shader
 * programs, bilateral sub-filters) are oracle inputs: whether they succeed,
 * which fresh object they create and which texture they render into.
 */
module Edl {
  import opened Wrappers
  import opened GlTrace

  /** A cascade level: 0 full, 1 half and 2 quarter resolution. */
  type Level = k: nat | k < 3

  function Pow2(k: Level): nat {
    if k == 0 then 1 else if k == 1 then 2 else 4
  }

  /** C++ integer division, which truncates toward zero. */
  function TruncDiv(a: int, d: nat): int
    requires d > 0
  {
    if a >= 0 then a / d else -((-a) / d)
  }

  /** `n / 2^k` as the C++ code writes it: the size of cascade level k. */
  function LevelDim(n: int, k: Level): int {
    TruncDiv(n, Pow2(k))
  }

  /** `n >> k` on a C++ int: an arithmetic shift, which rounds toward minus infinity. */
  function ShiftRight(n: int, k: Level): int {
    n / Pow2(k)
  }

  /** Shifting and dividing give the same level size on the screens a frame is drawn for. */
  lemma ShiftMatchesDivision(n: int, k: Level)
    requires n >= 0
    ensures ShiftRight(n, k) == LevelDim(n, k)
  {
  }

  /** The factor passed as the "Zoom" uniform. */
  function LightModulation(perspective: bool, zoom: real): (m: UniformValue)
    ensures perspective ==> m == FloatValue(3.0)
    ensures !perspective ==> m.SqrtValue? && m.radicand >= 1.4
    ensures !perspective && zoom <= 0.7 ==> m == SqrtValue(1.4)
    ensures !perspective && zoom >= 0.7 ==> m == SqrtValue(2.0 * zoom)
  {
    if perspective then FloatValue(3.0)
    else SqrtValue(2.0 * (if zoom > 0.7 then zoom else 0.7))
  }

  /** In orthographic mode the zoom matters only through max(zoom, 0.7). */
  lemma ModulationDependsOnClampedZoom(z1: real, z2: real)
    ensures LightModulation(false, z1) == LightModulation(false, z2)
        <==> (if z1 > 0.7 then z1 else 0.7) == (if z2 > 0.7 then z2 else 0.7)
  {
  }

  datatype FrameBuffer = FrameBuffer(id: nat, width: int, height: int, colorTexture: nat)

  datatype Shader = Shader(id: nat, source: string)

  datatype BilateralFilter = BilateralFilter(id: nat, width: int, height: int, texture: nat, existingViewport: bool)

  /** One level's smoothing settings and its optional sub-filter. */
  datatype SmoothingConfig = SmoothingConfig(
    enabled: bool,
    halfSize: int,
    sigma: real,
    sigmaZ: real,
    filter: Option<BilateralFilter>)

  datatype Vec3 = Vec3(x: real, y: real, z: real)

  /** What one allocate-and-initialise step yields: a fresh object's id, success, its texture. */
  datatype Allocation = Allocation(freshId: nat, ok: bool, texture: nat)

  /** Everything `init` learns from the outside world. */
  datatype InitEnv = InitEnv(
    context: bool,
    gl30: bool,
    edl0: Allocation,
    edl1: Allocation,
    edl2: Allocation,
    mix: Allocation,
    shadeProgram: Allocation,
    mixProgram: Allocation,
    smoothing0: Allocation,
    smoothing1: Allocation,
    smoothing2: Allocation)

  datatype InitError =
    | Gl30Missing
    | TargetFailed(target: Target)
    | ProgramFailed(program: ProgramKind)
    | SmoothingFailed(level: Level)

  datatype ViewportParameters = ViewportParameters(perspectiveMode: bool, zoom: real, zNear: real, zFar: real)

  const ShadeSource := "EDL/edl_shade"
  const MixSource := "EDL/edl_mix"

  /** The light direction set at construction, (sin φ cos θ, cos φ, sin φ sin θ) at θ = φ = π/2. */
  const DefaultLightDir := Vec3(0.0, 0.0, 1.0)

  /** Smoothing settings a new filter starts with. */
  function DefaultSmoothing(k: Level): SmoothingConfig {
    if k == 0 then SmoothingConfig(false, 1, 1.0, 0.2, None)
    else SmoothingConfig(true, 2, 2.0, 0.4, None)
  }

  /** The first fatal step of `init` once a context with OpenGL 3.0 is present, if any. */
  function FirstFailure(env: InitEnv, hadShadeProgram: bool, hadMixProgram: bool): Option<InitError> {
    if !env.edl0.ok then Some(TargetFailed(LevelBuffer(0)))
    else if !env.edl1.ok then Some(TargetFailed(LevelBuffer(1)))
    else if !env.edl2.ok then Some(TargetFailed(LevelBuffer(2)))
    else if !env.mix.ok then Some(TargetFailed(MixBuffer))
    else if !hadShadeProgram && !env.shadeProgram.ok then Some(ProgramFailed(ShadeProgram))
    else if !hadMixProgram && !env.mixProgram.ok then Some(ProgramFailed(MixProgram))
    else None
  }

  /** The error a successful `init` leaves behind: the last smoothing level that failed, if any. */
  function SmoothingError(failed0: bool, failed1: bool, failed2: bool): Option<InitError> {
    if failed2 then Some(SmoothingFailed(2))
    else if failed1 then Some(SmoothingFailed(1))
    else if failed0 then Some(SmoothingFailed(0))
    else None
  }

  /** The id a frame-buffer slot's object has after an allocate-if-null step. */
  function TargetId(slot: Option<FrameBuffer>, alloc: Allocation): nat {
    if slot.Some? then slot.value.id else alloc.freshId
  }

  /** The id a sub-filter slot's object has after an allocate-if-null step. */
  function SubFilterId(slot: Option<BilateralFilter>, alloc: Allocation): nat {
    if slot.Some? then slot.value.id else alloc.freshId
  }

  /** Two smoothing settings with the same kernel half-size and sigmas. */
  predicate SameParameters(a: SmoothingConfig, b: SmoothingConfig) {
    a.halfSize == b.halfSize && a.sigma == b.sigma && a.sigmaZ == b.sigmaZ
  }

  /** The smoothing settings `after` are what one smoothing step of `init` makes of `before`. */
  ghost predicate SmoothingFollows(before: SmoothingConfig, after: SmoothingConfig, width: int, height: int, alloc: Allocation) {
    after.enabled == (before.enabled && alloc.ok)
    && (after.filter.Some? <==> after.enabled)
    && SameParameters(before, after)
    && (after.filter.Some? ==>
          after.filter.value == BilateralFilter(SubFilterId(before.filter, alloc),
                                                width, height, alloc.texture, true))
  }

  /** Allocates a frame-buffer object if the slot is null, then sizes it. */
  method InitTarget(slot: Option<FrameBuffer>, width: int, height: int, alloc: Allocation)
    returns (fbo: FrameBuffer, ok: bool)
    ensures fbo.id == TargetId(slot, alloc)
    ensures ok == alloc.ok
    ensures ok ==> fbo.width == width && fbo.height == height && fbo.colorTexture == alloc.texture
  {
    var id := alloc.freshId;
    if slot.Some? {
      id := slot.value.id;
    }
    fbo := FrameBuffer(id, width, height, alloc.texture);
    ok := alloc.ok;
  }

  /** Creates and loads a shader program if the slot is null; a loaded program is kept as it is. */
  method LoadProgram(slot: Option<Shader>, source: string, load: Allocation)
    returns (shader: Shader, ok: bool)
    ensures slot.Some? ==> shader == slot.value && ok
    ensures slot.None? ==> shader == Shader(load.freshId, source) && ok == load.ok
  {
    if slot.Some? {
      shader, ok := slot.value, true;
    } else {
      shader := Shader(load.freshId, source);
      ok := load.ok;
    }
  }

  /**
   * (Re)creates an enabled level's sub-filter at the given size, or drops a
   * disabled level's leftover one. A failure disables the level instead of
   * failing the caller.
   */
  method InitSmoothing(config: SmoothingConfig, width: int, height: int, alloc: Allocation)
    returns (r: SmoothingConfig, failed: bool)
    ensures r.halfSize == config.halfSize && r.sigma == config.sigma && r.sigmaZ == config.sigmaZ
    ensures failed <==> config.enabled && !alloc.ok
    ensures r.enabled <==> config.enabled && alloc.ok
    ensures r.filter.Some? <==> r.enabled
    ensures r.filter.Some? ==>
      r.filter.value == BilateralFilter(SubFilterId(config.filter, alloc),
                                        width, height, alloc.texture, true)
  {
    r, failed := config, false;
    if config.enabled {
      var id := alloc.freshId;
      if config.filter.Some? {
        id := config.filter.value.id;
      }
      if !alloc.ok {
        r := r.(filter := None, enabled := false);
        failed := true;
      } else {
        r := r.(filter := Some(BilateralFilter(id, width, height, alloc.texture, true)));
      }
    } else if config.filter.Some? {
      r := r.(filter := None);
    }
  }

  class EdlFilter {
    var screenWidth: int
    var screenHeight: int
    var fboEdl0: Option<FrameBuffer>
    var fboEdl1: Option<FrameBuffer>
    var fboEdl2: Option<FrameBuffer>
    var fboMix: Option<FrameBuffer>
    var shaderEdl: Option<Shader>
    var shaderMix: Option<Shader>
    var bilateralFilter0: SmoothingConfig
    var bilateralFilter1: SmoothingConfig
    var bilateralFilter2: SmoothingConfig
    /** The strength of the shading (scale of the exponential falloff). */
    var expScale: real
    var lightDir: Vec3

    function Cascade(k: Level): Option<FrameBuffer>
      reads this
    {
      if k == 0 then fboEdl0 else if k == 1 then fboEdl1 else fboEdl2
    }

    function Smoothing(k: Level): SmoothingConfig
      reads this
    {
      if k == 0 then bilateralFilter0 else if k == 1 then bilateralFilter1 else bilateralFilter2
    }

    /** All four frame-buffer objects and both shader programs exist. */
    predicate CoreAllocated()
      reads this
    {
      fboEdl0.Some? && fboEdl1.Some? && fboEdl2.Some? && fboMix.Some? && shaderEdl.Some? && shaderMix.Some?
    }

    /** The state `reset` leaves: nothing owned, no screen size. */
    predicate IsReleased()
      reads this
    {
      fboEdl0.None? && fboEdl1.None? && fboEdl2.None? && fboMix.None? && shaderEdl.None? && shaderMix.None?
      && bilateralFilter0.filter.None? && bilateralFilter1.filter.None? && bilateralFilter2.filter.None?
      && screenWidth == 0 && screenHeight == 0
    }

    /** Level k's target and sub-filter match a width x height screen, and the sub-filter exists exactly when enabled. */
    static ghost predicate LevelReady(fbo: Option<FrameBuffer>, config: SmoothingConfig, width: int, height: int, k: Level) {
      fbo.Some?
      && fbo.value.width == LevelDim(width, k) && fbo.value.height == LevelDim(height, k)
      && (config.filter.Some? <==> config.enabled)
      && (config.filter.Some? ==>
            config.filter.value.width == LevelDim(width, k)
            && config.filter.value.height == LevelDim(height, k)
            && config.filter.value.existingViewport)
    }

    /** Between public calls the filter owns everything, sized for the screen, or nothing. */
    ghost predicate Valid()
      reads this
    {
      IsReleased()
      || (CoreAllocated()
          && LevelReady(fboEdl0, bilateralFilter0, screenWidth, screenHeight, 0)
          && LevelReady(fboEdl1, bilateralFilter1, screenWidth, screenHeight, 1)
          && LevelReady(fboEdl2, bilateralFilter2, screenWidth, screenHeight, 2)
          && fboMix.value.width == screenWidth && fboMix.value.height == screenHeight)
    }

    constructor ()
      ensures Valid() && IsReleased()
      ensures forall k: Level :: Smoothing(k) == DefaultSmoothing(k)
      ensures expScale == 100.0 && lightDir == DefaultLightDir
    {
      screenWidth, screenHeight := 0, 0;
      fboEdl0, fboEdl1, fboEdl2, fboMix := None, None, None, None;
      shaderEdl, shaderMix := None, None;
      expScale := 100.0;
      bilateralFilter0 := SmoothingConfig(false, 1, 1.0, 0.2, None);
      bilateralFilter1 := SmoothingConfig(true, 2, 2.0, 0.4, None);
      bilateralFilter2 := SmoothingConfig(true, 2, 2.0, 0.4, None);
      lightDir := DefaultLightDir;
    }

    method SetStrength(value: real)
      modifies this`expScale
      ensures expScale == value
    {
      expScale := value;
    }

    /** A new filter with this one's user parameters and no resources. */
    method Clone() returns (f: EdlFilter)
      ensures fresh(f) && f.Valid() && f.IsReleased()
      ensures f.expScale == expScale && f.lightDir == lightDir
      ensures forall k: Level :: f.Smoothing(k) == DefaultSmoothing(k)
    {
      f := new EdlFilter();
      f.SetStrength(expScale);
      f.lightDir := lightDir;
    }

    /** Deletes every owned resource and forgets the screen size. */
    method Reset()
      modifies this
      ensures Valid() && IsReleased()
      ensures bilateralFilter0 == old(bilateralFilter0).(filter := None)
      ensures bilateralFilter1 == old(bilateralFilter1).(filter := None)
      ensures bilateralFilter2 == old(bilateralFilter2).(filter := None)
      ensures expScale == old(expScale) && lightDir == old(lightDir)
      ensures forall i :: Texture(i) == 0
      ensures old(IsReleased()) ==> unchanged(this)
    {
      fboEdl0 := None;
      fboEdl1 := None;
      fboEdl2 := None;
      fboMix := None;
      shaderEdl := None;
      shaderMix := None;
      bilateralFilter0 := bilateralFilter0.(filter := None);
      bilateralFilter1 := bilateralFilter1.(filter := None);
      bilateralFilter2 := bilateralFilter2.(filter := None);
      screenWidth, screenHeight := 0, 0;
    }

    /**
     * Allocates, or resizes, everything for a width x height screen. The
     * overload without a pixel format and filter mode behaves the same here,
     * since neither is modelled.
     */
    method Init(env: InitEnv, width: int, height: int) returns (ok: bool, error: Option<InitError>)
      modifies this
      ensures !env.context ==> !ok && error == None && unchanged(this)
      ensures env.context && !env.gl30 ==> !ok && error == Some(Gl30Missing) && unchanged(this)
      ensures env.context && env.gl30 ==>
        Valid() && (ok <==> FirstFailure(env, old(shaderEdl).Some?, old(shaderMix).Some?) == None)
      ensures env.context && env.gl30 && !ok ==>
        IsReleased() && error == FirstFailure(env, old(shaderEdl).Some?, old(shaderMix).Some?)
      ensures !ok ==> EnabledKept(old(bilateralFilter0), old(bilateralFilter1), old(bilateralFilter2))
      ensures ok ==> screenWidth == width && screenHeight == height
      ensures ok ==> TargetsBuilt(old(fboEdl0), old(fboEdl1), old(fboEdl2), old(fboMix), env, width, height)
      ensures ok ==> ProgramsBuilt(old(shaderEdl), old(shaderMix), env)
      ensures ok ==> SubFiltersBuilt(old(bilateralFilter0), old(bilateralFilter1), old(bilateralFilter2), env, width, height)
      ensures ok ==> error == SmoothingError(
        old(bilateralFilter0.enabled) && !env.smoothing0.ok,
        old(bilateralFilter1.enabled) && !env.smoothing1.ok,
        old(bilateralFilter2.enabled) && !env.smoothing2.ok)
      ensures ParametersKept(old(bilateralFilter0), old(bilateralFilter1), old(bilateralFilter2))
      ensures expScale == old(expScale) && lightDir == old(lightDir)
    {
      if !env.context {
        return false, None;
      }
      if !env.gl30 {
        return false, Some(Gl30Missing);
      }
      ok, error := AllocateAll(env, width, height);
    }

    /** The steps of `init` once a context with OpenGL 3.0 is present. */
    method AllocateAll(env: InitEnv, width: int, height: int) returns (ok: bool, error: Option<InitError>)
      modifies this
      ensures Valid() && (ok <==> FirstFailure(env, old(shaderEdl).Some?, old(shaderMix).Some?) == None)
      ensures !ok ==> IsReleased() && error == FirstFailure(env, old(shaderEdl).Some?, old(shaderMix).Some?)
      ensures !ok ==> EnabledKept(old(bilateralFilter0), old(bilateralFilter1), old(bilateralFilter2))
      ensures ok ==> screenWidth == width && screenHeight == height
      ensures ok ==> TargetsBuilt(old(fboEdl0), old(fboEdl1), old(fboEdl2), old(fboMix), env, width, height)
      ensures ok ==> ProgramsBuilt(old(shaderEdl), old(shaderMix), env)
      ensures ok ==> SubFiltersBuilt(old(bilateralFilter0), old(bilateralFilter1), old(bilateralFilter2), env, width, height)
      ensures ok ==> error == SmoothingError(
        old(bilateralFilter0.enabled) && !env.smoothing0.ok,
        old(bilateralFilter1.enabled) && !env.smoothing1.ok,
        old(bilateralFilter2.enabled) && !env.smoothing2.ok)
      ensures ParametersKept(old(bilateralFilter0), old(bilateralFilter1), old(bilateralFilter2))
      ensures expScale == old(expScale) && lightDir == old(lightDir)
    {
      ok, error := AllocateTargets(env, width, height);
      if !ok {
        return;
      }
      ok, error := LoadPrograms(env);
      if !ok {
        return;
      }
      error := InitSubFilters(env, width, height);
      screenWidth, screenHeight := width, height;
    }

    /** Each level's smoothing flag is what it was in `before0..2`. */
    predicate EnabledKept(before0: SmoothingConfig, before1: SmoothingConfig, before2: SmoothingConfig)
      reads this
    {
      bilateralFilter0.enabled == before0.enabled
      && bilateralFilter1.enabled == before1.enabled
      && bilateralFilter2.enabled == before2.enabled
    }

    /** Each level keeps the kernel parameters it had in `before0..2`. */
    predicate ParametersKept(before0: SmoothingConfig, before1: SmoothingConfig, before2: SmoothingConfig)
      reads this
    {
      SameParameters(before0, bilateralFilter0) && SameParameters(before1, bilateralFilter1)
      && SameParameters(before2, bilateralFilter2)
    }

    /** The four targets are the old objects or fresh ones, sized W x H, W/2 x H/2, W/4 x H/4 and W x H. */
    predicate TargetsBuilt(before0: Option<FrameBuffer>, before1: Option<FrameBuffer>, before2: Option<FrameBuffer>,
                           beforeMix: Option<FrameBuffer>, env: InitEnv, width: int, height: int)
      reads this
    {
      fboEdl0 == Some(FrameBuffer(TargetId(before0, env.edl0), width, height, env.edl0.texture))
      && fboEdl1 == Some(FrameBuffer(TargetId(before1, env.edl1), LevelDim(width, 1), LevelDim(height, 1), env.edl1.texture))
      && fboEdl2 == Some(FrameBuffer(TargetId(before2, env.edl2), LevelDim(width, 2), LevelDim(height, 2), env.edl2.texture))
      && fboMix == Some(FrameBuffer(TargetId(beforeMix, env.mix), width, height, env.mix.texture))
    }

    /** A program already loaded is kept; a missing one is the fresh program built from its source. */
    predicate ProgramsBuilt(beforeEdl: Option<Shader>, beforeMix: Option<Shader>, env: InitEnv)
      reads this
    {
      shaderEdl == (if beforeEdl.Some? then beforeEdl else Some(Shader(env.shadeProgram.freshId, ShadeSource)))
      && shaderMix == (if beforeMix.Some? then beforeMix else Some(Shader(env.mixProgram.freshId, MixSource)))
    }

    /** Each level's smoothing follows one smoothing step from `before0..2` at full, half and quarter size. */
    ghost predicate SubFiltersBuilt(before0: SmoothingConfig, before1: SmoothingConfig, before2: SmoothingConfig,
                                    env: InitEnv, width: int, height: int)
      reads this
    {
      SmoothingFollows(before0, bilateralFilter0, width, height, env.smoothing0)
      && SmoothingFollows(before1, bilateralFilter1, LevelDim(width, 1), LevelDim(height, 1), env.smoothing1)
      && SmoothingFollows(before2, bilateralFilter2, LevelDim(width, 2), LevelDim(height, 2), env.smoothing2)
    }

    /** The four frame-buffer steps of `init`; the first failure resets the filter. */
    method AllocateTargets(env: InitEnv, width: int, height: int) returns (ok: bool, error: Option<InitError>)
      modifies this
      ensures ok <==> env.edl0.ok && env.edl1.ok && env.edl2.ok && env.mix.ok
      ensures !ok ==> IsReleased() && error == FirstFailure(env, true, true)
      ensures !ok ==> EnabledKept(old(bilateralFilter0), old(bilateralFilter1), old(bilateralFilter2))
      ensures ok ==> unchanged(this`shaderEdl, this`shaderMix, this`screenWidth, this`screenHeight)
      ensures ok ==> unchanged(this`bilateralFilter0, this`bilateralFilter1, this`bilateralFilter2)
      ensures ok ==> TargetsBuilt(old(fboEdl0), old(fboEdl1), old(fboEdl2), old(fboMix), env, width, height)
      ensures ParametersKept(old(bilateralFilter0), old(bilateralFilter1), old(bilateralFilter2))
      ensures expScale == old(expScale) && lightDir == old(lightDir)
    {
      var fbo, done := InitTarget(fboEdl0, width, height, env.edl0);
      fboEdl0 := Some(fbo);
      if !done {
        Reset();
        return false, Some(TargetFailed(LevelBuffer(0)));
      }
      fbo, done := InitTarget(fboEdl1, LevelDim(width, 1), LevelDim(height, 1), env.edl1);
      fboEdl1 := Some(fbo);
      if !done {
        Reset();
        return false, Some(TargetFailed(LevelBuffer(1)));
      }
      fbo, done := InitTarget(fboEdl2, LevelDim(width, 2), LevelDim(height, 2), env.edl2);
      fboEdl2 := Some(fbo);
      if !done {
        Reset();
        return false, Some(TargetFailed(LevelBuffer(2)));
      }
      fbo, done := InitTarget(fboMix, width, height, env.mix);
      fboMix := Some(fbo);
      if !done {
        Reset();
        return false, Some(TargetFailed(MixBuffer));
      }
      ok, error := true, None;
    }

    /** The two shader steps of `init`: load each program not loaded yet; a failure resets the filter. */
    method LoadPrograms(env: InitEnv) returns (ok: bool, error: Option<InitError>)
      modifies this
      ensures ok <==> (old(shaderEdl).Some? || env.shadeProgram.ok) && (old(shaderMix).Some? || env.mixProgram.ok)
      ensures !ok ==> IsReleased()
      ensures !ok ==> error == (if old(shaderEdl).None? && !env.shadeProgram.ok then Some(ProgramFailed(ShadeProgram))
                                else Some(ProgramFailed(MixProgram)))
      ensures !ok ==> EnabledKept(old(bilateralFilter0), old(bilateralFilter1), old(bilateralFilter2))
      ensures ok ==> unchanged(this`fboEdl0, this`fboEdl1, this`fboEdl2, this`fboMix, this`screenWidth, this`screenHeight)
      ensures ok ==> unchanged(this`bilateralFilter0, this`bilateralFilter1, this`bilateralFilter2)
      ensures ok ==> ProgramsBuilt(old(shaderEdl), old(shaderMix), env)
      ensures ParametersKept(old(bilateralFilter0), old(bilateralFilter1), old(bilateralFilter2))
      ensures expScale == old(expScale) && lightDir == old(lightDir)
    {
      var shader, done := LoadProgram(shaderEdl, ShadeSource, env.shadeProgram);
      shaderEdl := Some(shader);
      if !done {
        Reset();
        return false, Some(ProgramFailed(ShadeProgram));
      }
      shader, done := LoadProgram(shaderMix, MixSource, env.mixProgram);
      shaderMix := Some(shader);
      if !done {
        Reset();
        return false, Some(ProgramFailed(MixProgram));
      }
      ok, error := true, None;
    }

    /** The three smoothing steps of `init`, at full, half and quarter size. */
    method InitSubFilters(env: InitEnv, width: int, height: int) returns (error: Option<InitError>)
      modifies this`bilateralFilter0, this`bilateralFilter1, this`bilateralFilter2
      ensures SubFiltersBuilt(old(bilateralFilter0), old(bilateralFilter1), old(bilateralFilter2), env, width, height)
      ensures error == SmoothingError(
        old(bilateralFilter0.enabled) && !env.smoothing0.ok,
        old(bilateralFilter1.enabled) && !env.smoothing1.ok,
        old(bilateralFilter2.enabled) && !env.smoothing2.ok)
    {
      error := None;
      var failed;
      bilateralFilter0, failed := InitSmoothing(bilateralFilter0, width, height, env.smoothing0);
      if failed {
        error := Some(SmoothingFailed(0));
      }
      bilateralFilter1, failed := InitSmoothing(bilateralFilter1, LevelDim(width, 1), LevelDim(height, 1), env.smoothing1);
      if failed {
        error := Some(SmoothingFailed(1));
      }
      bilateralFilter2, failed := InitSmoothing(bilateralFilter2, LevelDim(width, 2), LevelDim(height, 2), env.smoothing2);
      if failed {
        error := Some(SmoothingFailed(2));
      }
    }

    /** The texture of result slot `index`, or 0 for an absent slot or a bad index. */
    function Texture(index: int): (t: nat)
      reads this
      ensures t != 0 ==> 0 <= index < 7
    {
      match index
      case 0 => if fboMix.Some? then fboMix.value.colorTexture else 0
      case 1 => if fboEdl0.Some? then fboEdl0.value.colorTexture else 0
      case 2 => if fboEdl1.Some? then fboEdl1.value.colorTexture else 0
      case 3 => if fboEdl2.Some? then fboEdl2.value.colorTexture else 0
      case 4 => if bilateralFilter0.filter.Some? then bilateralFilter0.filter.value.texture else 0
      case 5 => if bilateralFilter1.filter.Some? then bilateralFilter1.filter.value.texture else 0
      case 6 => if bilateralFilter2.filter.Some? then bilateralFilter2.filter.value.texture else 0
      case _ => 0
    }

    /** The composite reads, for each level, the texture `getTexture` exposes for it: smoothed if filtered, else raw. */
    lemma CompositeReadsExposedTextures()
      requires CoreAllocated()
      ensures forall k: Level :: LevelResult(k) == (if Smoothing(k).filter.Some? then Texture(4 + k) else Texture(1 + k))
    {
    }

    /** The final composite texture. */
    function DefaultTexture(): (t: nat)
      reads this
      ensures fboMix.None? ==> t == 0
      ensures fboMix.Some? ==> t == fboMix.value.colorTexture
    {
      Texture(0)
    }

    /** A frame is skipped without a context, without OpenGL 2.1, before `init`, or on a screen under 4 pixels. */
    predicate Skips(context: bool, gl21: bool)
      reads this
    {
      !context || !gl21 || fboEdl0.None? || screenWidth < 4 || screenHeight < 4
    }

    /** The texture the composite reads for level k: the smoothed one when the level has a sub-filter. */
    function LevelResult(k: Level): nat
      reads this
      requires Cascade(k).Some?
    {
      if Smoothing(k).filter.Some? then Smoothing(k).filter.value.texture else Cascade(k).value.colorTexture
    }

    function LevelPass(k: Level, texDepth: nat, texColor: nat, view: ViewportParameters): RenderPass
      reads this
    {
      RenderPass(
        LevelBuffer(k), ShadeProgram,
        [ Setting("s1_color", IntValue(1)),
          Setting("s2_depth", IntValue(0)),
          Setting("Sx", FloatValue(ShiftRight(screenWidth, k) as real)),
          Setting("Sy", FloatValue(ShiftRight(screenHeight, k) as real)),
          Setting("Zoom", LightModulation(view.perspectiveMode, view.zoom)),
          Setting("PerspectiveMode", IntValue(if view.perspectiveMode then 1 else 0)),
          Setting("Pix_scale", FloatValue(Pow2(k) as real)),
          Setting("Exp_scale", FloatValue(expScale)),
          Setting("Zm", FloatValue(view.zNear)),
          Setting("ZM", FloatValue(view.zFar)),
          Setting("Light_dir", VectorValue([lightDir.x, lightDir.y, lightDir.z])),
          Setting("Neigh_pos_2D", NeighbourTable) ],
        [Binding(1, texColor)],
        Quad(texDepth, LevelDim(screenWidth, k), LevelDim(screenHeight, k)))
    }

    function SmoothCall(k: Level, texDepth: nat): SmoothPass
      reads this
      requires Cascade(k).Some?
    {
      var config := Smoothing(k);
      SmoothPass(k, config.halfSize, config.sigma, config.sigmaZ, texDepth, Cascade(k).value.colorTexture)
    }

    function CompositePass(texDepth: nat): RenderPass
      reads this
      requires CoreAllocated()
    {
      RenderPass(
        MixBuffer, MixProgram,
        [ Setting("s2_I1", IntValue(0)),
          Setting("s2_I2", IntValue(1)),
          Setting("s2_I4", IntValue(2)),
          Setting("s2_D", IntValue(3)),
          Setting("A0", FloatValue(1.0)),
          Setting("A1", FloatValue(0.5)),
          Setting("A2", FloatValue(0.25)),
          Setting("absorb", IntValue(1)) ],
        [Binding(3, texDepth), Binding(2, LevelResult(2)), Binding(1, LevelResult(1))],
        Quad(LevelResult(0), screenWidth, screenHeight))
    }

    /** What the shading pass of level k does. */
    ghost predicate ShadesLevel(p: RenderPass, k: Level, texDepth: nat, texColor: nat, view: ViewportParameters)
      reads this
    {
      p.target == LevelBuffer(k) && p.program == ShadeProgram
      && p.inputs == [Binding(1, texColor)]
      && p.quad == Quad(texDepth, LevelDim(screenWidth, k), LevelDim(screenHeight, k))
      && DistinctNames(p.uniforms)
      && Setting("s1_color", IntValue(1)) in p.uniforms
      && Setting("s2_depth", IntValue(0)) in p.uniforms
      && Setting("Sx", FloatValue(ShiftRight(screenWidth, k) as real)) in p.uniforms
      && Setting("Sy", FloatValue(ShiftRight(screenHeight, k) as real)) in p.uniforms
      && Setting("Pix_scale", FloatValue(Pow2(k) as real)) in p.uniforms
      && Setting("Zoom", LightModulation(view.perspectiveMode, view.zoom)) in p.uniforms
      && Setting("PerspectiveMode", IntValue(if view.perspectiveMode then 1 else 0)) in p.uniforms
      && Setting("Exp_scale", FloatValue(expScale)) in p.uniforms
      && Setting("Zm", FloatValue(view.zNear)) in p.uniforms
      && Setting("ZM", FloatValue(view.zFar)) in p.uniforms
      && Setting("Light_dir", VectorValue([lightDir.x, lightDir.y, lightDir.z])) in p.uniforms
      && Setting("Neigh_pos_2D", NeighbourTable) in p.uniforms
    }

    /** What the composite pass does: level k's result on unit k, depth on unit 3, fixed weights. */
    ghost predicate Composites(p: RenderPass, texDepth: nat)
      reads this
      requires CoreAllocated()
    {
      p.target == MixBuffer && p.program == MixProgram
      && p.quad == Quad(LevelResult(0), screenWidth, screenHeight)
      && p.inputs == [Binding(3, texDepth), Binding(2, LevelResult(2)), Binding(1, LevelResult(1))]
      && DistinctNames(p.uniforms)
      && Setting("s2_I1", IntValue(0)) in p.uniforms
      && Setting("s2_I2", IntValue(1)) in p.uniforms
      && Setting("s2_I4", IntValue(2)) in p.uniforms
      && Setting("s2_D", IntValue(3)) in p.uniforms
      && Setting("A0", FloatValue(1.0)) in p.uniforms
      && Setting("A1", FloatValue(0.5)) in p.uniforms
      && Setting("A2", FloatValue(0.25)) in p.uniforms
      && Setting("absorb", IntValue(1)) in p.uniforms
    }

    /** The levels that have a sub-filter, in increasing order. */
    function FilteredLevels(): seq<Level>
      reads this
    {
      (if bilateralFilter0.filter.Some? then [0] else [])
      + (if bilateralFilter1.filter.Some? then [1] else [])
      + (if bilateralFilter2.filter.Some? then [2] else [])
    }

    lemma FilteredLevelsExact()
      ensures forall k: Level :: k in FilteredLevels() <==> Smoothing(k).filter.Some?
      ensures forall i, j :: 0 <= i < j < |FilteredLevels()| ==> FilteredLevels()[i] < FilteredLevels()[j]
    {
    }

    /** Smoothing runs once per level that has a sub-filter, in level order, on that level's raw output. */
    ghost predicate SmoothsFiltered(ss: seq<Pass>, texDepth: nat)
      reads this
      requires CoreAllocated()
    {
      SmoothsLevels(ss, FilteredLevels(), texDepth)
    }

    /** `ss` smooths the given levels, one pass each, in that order. */
    ghost predicate SmoothsLevels(ss: seq<Pass>, levels: seq<Level>, texDepth: nat)
      reads this
      requires CoreAllocated()
    {
      |ss| == |levels| && forall i :: 0 <= i < |ss| ==> ss[i] == Smoothed(SmoothCall(levels[i], texDepth))
    }

    lemma LevelPassShades(k: Level, texDepth: nat, texColor: nat, view: ViewportParameters)
      ensures ShadesLevel(LevelPass(k, texDepth, texColor, view), k, texDepth, texColor, view)
    {
      LevelUniformsDistinct(k, texDepth, texColor, view);
    }

    lemma LevelUniformsDistinct(k: Level, texDepth: nat, texColor: nat, view: ViewportParameters)
      ensures DistinctNames(LevelPass(k, texDepth, texColor, view).uniforms)
    {
    }

    lemma CompositePassComposites(texDepth: nat)
      requires CoreAllocated()
      ensures Composites(CompositePass(texDepth), texDepth)
    {
    }

    /** The trace has saved the caller's state and set this screen's projection, and ran every pass inside that frame. */
    predicate Framed(t: seq<Event>)
      reads this
    {
      InsideFrame(t, screenWidth, screenHeight) && PassesFramed(t, screenWidth, screenHeight)
    }

    /** Saves the caller's attributes and matrices and sets a pixel-exact orthographic projection. */
    method SaveState() returns (trace: seq<Event>)
      ensures trace == [PushAttrib, PushMatrix(Projection), LoadIdentity(Projection),
                        LoadOrtho(screenWidth, screenHeight), PushMatrix(ModelView), LoadIdentity(ModelView)]
      ensures Replay(trace, Empty) == Some(Depths(1, 1, 1))
      ensures Passes(trace) == []
      ensures Framed(trace)
    {
      trace := Issue([], PushAttrib);
      trace := Issue(trace, PushMatrix(Projection));
      trace := Issue(trace, LoadIdentity(Projection));
      trace := Issue(trace, LoadOrtho(screenWidth, screenHeight));
      trace := Issue(trace, PushMatrix(ModelView));
      trace := Issue(trace, LoadIdentity(ModelView));
      assert trace[3] == LoadOrtho(screenWidth, screenHeight);
      PassFreeFramed(trace, screenWidth, screenHeight);
    }

    /** Restores the matrices and attributes `SaveState` saved. */
    method RestoreState(trace: seq<Event>) returns (trace': seq<Event>)
      requires Replay(trace, Empty) == Some(Depths(1, 1, 1))
      ensures trace' == trace + [PopMatrix(Projection)] + [PopMatrix(ModelView)] + [PopAttrib]
      ensures Balanced(trace')
      ensures Passes(trace') == Passes(trace)
      ensures PassesFramed(trace, screenWidth, screenHeight) ==> PassesFramed(trace', screenWidth, screenHeight)
    {
      trace' := trace + [PopMatrix(Projection)] + [PopMatrix(ModelView)] + [PopAttrib];
      RestoreBalances(trace);
      RestoreKeepsFramed(trace, screenWidth, screenHeight);
    }

    /** The passes that smoothing level k contributes: one if the level has a sub-filter. */
    function LevelSmoothing(k: Level, texDepth: nat): seq<Pass>
      reads this
      requires CoreAllocated()
    {
      if Smoothing(k).filter.Some? then [Smoothed(SmoothCall(k, texDepth))] else []
    }

    /** Runs level k's sub-filter, if it has one, with the level's parameters on its raw output. */
    method SmoothLevel(k: Level, trace: seq<Event>, texDepth: nat) returns (trace': seq<Event>)
      requires CoreAllocated()
      ensures Replay(trace', Empty) == Replay(trace, Empty)
      ensures trace' == trace + (if Smoothing(k).filter.Some? then [Run(Smoothed(SmoothCall(k, texDepth)))] else [])
      ensures Passes(trace') == Passes(trace) + LevelSmoothing(k, texDepth)
      ensures Framed(trace) ==> Framed(trace')
    {
      trace' := trace;
      if Smoothing(k).filter.Some? {
        trace' := IssuePass(trace, Smoothed(SmoothCall(k, texDepth)), screenWidth, screenHeight);
      }
    }

    /** Runs the sub-filter of every level that has one, on that level's raw output. */
    method SmoothLevels(trace: seq<Event>, texDepth: nat) returns (trace': seq<Event>, ghost smoothed: seq<Pass>)
      requires CoreAllocated()
      ensures Replay(trace', Empty) == Replay(trace, Empty)
      ensures Passes(trace') == Passes(trace) + smoothed
      ensures SmoothsFiltered(smoothed, texDepth)
      ensures Framed(trace) ==> Framed(trace')
    {
      trace' := SmoothLevel(0, trace, texDepth);
      trace' := SmoothLevel(1, trace', texDepth);
      trace' := SmoothLevel(2, trace', texDepth);
      smoothed := LevelSmoothing(0, texDepth) + LevelSmoothing(1, texDepth) + LevelSmoothing(2, texDepth);
      assert Passes(trace') == Passes(trace) + smoothed;
      SmoothingCoversFilteredLevels(texDepth);
    }

    lemma SmoothingCoversFilteredLevels(texDepth: nat)
      requires CoreAllocated()
      ensures SmoothsFiltered(LevelSmoothing(0, texDepth) + LevelSmoothing(1, texDepth) + LevelSmoothing(2, texDepth), texDepth)
    {
      var l0, l1, l2 := LevelSmoothing(0, texDepth), LevelSmoothing(1, texDepth), LevelSmoothing(2, texDepth);
      var f0: seq<Level> := if bilateralFilter0.filter.Some? then [0] else [];
      var f1: seq<Level> := if bilateralFilter1.filter.Some? then [1] else [];
      var f2: seq<Level> := if bilateralFilter2.filter.Some? then [2] else [];
      assert SmoothsLevels(l0, f0, texDepth);
      assert SmoothsLevels(l1, f1, texDepth);
      assert SmoothsLevels(l2, f2, texDepth);
      SmoothsLevelsConcat(l0, f0, l1, f1, texDepth);
      SmoothsLevelsConcat(l0 + l1, f0 + f1, l2, f2, texDepth);
    }

    lemma SmoothsLevelsConcat(a: seq<Pass>, la: seq<Level>, b: seq<Pass>, lb: seq<Level>, texDepth: nat)
      requires CoreAllocated()
      requires SmoothsLevels(a, la, texDepth) && SmoothsLevels(b, lb, texDepth)
      ensures SmoothsLevels(a + b, la + lb, texDepth)
    {
    }

    /**
     * The passes of a frame: levels 0, 1 and 2 shaded in that order, then the
     * smoothing of the levels that have a sub-filter, then the composite.
     */
    ghost predicate DrawsFrame(passes: seq<Pass>, texDepth: nat, texColor: nat, view: ViewportParameters)
      reads this
      requires CoreAllocated()
    {
      4 <= |passes| <= 7
      && (forall k: Level :: passes[k].Rendered? && ShadesLevel(passes[k].render, k, texDepth, texColor, view))
      && SmoothsFiltered(passes[3..|passes| - 1], texDepth)
      && passes[|passes| - 1].Rendered?
      && Composites(passes[|passes| - 1].render, texDepth)
    }

    lemma FramePassesDrawFrame(smoothed: seq<Pass>, texDepth: nat, texColor: nat, view: ViewportParameters)
      requires CoreAllocated() && SmoothsFiltered(smoothed, texDepth)
      ensures DrawsFrame(LevelPasses(texDepth, texColor, view) + smoothed + [Rendered(CompositePass(texDepth))],
                         texDepth, texColor, view)
    {
      var composite := Rendered(CompositePass(texDepth));
      var passes := LevelPasses(texDepth, texColor, view) + smoothed + [composite];
      assert passes[3..|passes| - 1] == smoothed;
      assert passes[|passes| - 1] == composite;
      assert passes == LevelPasses(texDepth, texColor, view) + (smoothed + [composite]);
      forall k: Level
        ensures passes[k].Rendered? && ShadesLevel(passes[k].render, k, texDepth, texColor, view)
      {
        LevelPassAt(smoothed + [composite], k, texDepth, texColor, view);
        LevelPassShades(k, texDepth, texColor, view);
      }
      CompositePassComposites(texDepth);
    }

    lemma LevelPassAt(rest: seq<Pass>, k: Level, texDepth: nat, texColor: nat, view: ViewportParameters)
      ensures (LevelPasses(texDepth, texColor, view) + rest)[k] == Rendered(LevelPass(k, texDepth, texColor, view))
    {
    }

    function LevelPasses(texDepth: nat, texColor: nat, view: ViewportParameters): seq<Pass>
      reads this
    {
      [ Rendered(LevelPass(0, texDepth, texColor, view)),
        Rendered(LevelPass(1, texDepth, texColor, view)),
        Rendered(LevelPass(2, texDepth, texColor, view)) ]
    }

    /** Shades the full, half and quarter resolution levels, in that order. */
    method ShadeLevels(trace: seq<Event>, texDepth: nat, texColor: nat, view: ViewportParameters)
      returns (trace': seq<Event>)
      ensures trace' == trace + [Run(LevelPasses(texDepth, texColor, view)[0])]
                              + [Run(LevelPasses(texDepth, texColor, view)[1])]
                              + [Run(LevelPasses(texDepth, texColor, view)[2])]
      ensures Replay(trace', Empty) == Replay(trace, Empty)
      ensures Passes(trace') == Passes(trace) + LevelPasses(texDepth, texColor, view)
      ensures Framed(trace) ==> Framed(trace')
    {
      var passes := LevelPasses(texDepth, texColor, view);
      trace' := IssuePass(trace, passes[0], screenWidth, screenHeight);
      trace' := IssuePass(trace', passes[1], screenWidth, screenHeight);
      trace' := IssuePass(trace', passes[2], screenWidth, screenHeight);
      assert Passes(trace') == Passes(trace) + [passes[0]] + [passes[1]] + [passes[2]];
      assert [passes[0]] + [passes[1]] + [passes[2]] == passes;
    }

    /** Runs the composite pass into the mix target. */
    method Compose(trace: seq<Event>, texDepth: nat) returns (trace': seq<Event>)
      requires CoreAllocated()
      ensures Replay(trace', Empty) == Replay(trace, Empty)
      ensures trace' == trace + [Run(Rendered(CompositePass(texDepth)))]
      ensures Passes(trace') == Passes(trace) + [Rendered(CompositePass(texDepth))]
      ensures Framed(trace) ==> Framed(trace')
    {
      trace' := IssuePass(trace, Rendered(CompositePass(texDepth)), screenWidth, screenHeight);
    }

    /** Renders one frame from a depth and a colour texture, as a trace of commands. */
    method Shade(context: bool, gl21: bool, texDepth: nat, texColor: nat, view: ViewportParameters)
      returns (trace: seq<Event>)
      requires Valid()
      ensures Skips(context, gl21) <==> trace == []
      ensures !Skips(context, gl21) ==>
        Balanced(trace) && CoreAllocated() && DrawsFrame(Passes(trace), texDepth, texColor, view)
      ensures !Skips(context, gl21) ==> PassesFramed(trace, screenWidth, screenHeight)
    {
      if !context || !gl21 || fboEdl0.None? || screenWidth < 4 || screenHeight < 4 {
        return [];
      }
      trace := DrawFrame(texDepth, texColor, view);
    }

    /** The drawing part of a frame: save, shade the three levels, smooth, composite, restore. */
    method DrawFrame(texDepth: nat, texColor: nat, view: ViewportParameters) returns (trace: seq<Event>)
      requires CoreAllocated()
      ensures trace != []
      ensures Balanced(trace) && DrawsFrame(Passes(trace), texDepth, texColor, view)
      ensures PassesFramed(trace, screenWidth, screenHeight)
    {
      trace := SaveState();
      trace := ShadeLevels(trace, texDepth, texColor, view);
      ghost var smoothed;
      trace, smoothed := SmoothLevels(trace, texDepth);
      trace := Compose(trace, texDepth);
      trace := RestoreState(trace);

      TraceDrawsFrame(trace, smoothed, texDepth, texColor, view);
    }

    lemma TraceDrawsFrame(trace: seq<Event>, smoothed: seq<Pass>, texDepth: nat, texColor: nat, view: ViewportParameters)
      requires CoreAllocated() && SmoothsFiltered(smoothed, texDepth)
      requires Passes(trace) == LevelPasses(texDepth, texColor, view) + smoothed + [Rendered(CompositePass(texDepth))]
      ensures DrawsFrame(Passes(trace), texDepth, texColor, view)
    {
      FramePassesDrawFrame(smoothed, texDepth, texColor, view);
    }
  }
}
