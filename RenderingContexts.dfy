/** The state-diffing rendering context (src/renderers/webgl2/RenderingContext.ts).

    The context caches the bound program, the bound framebuffer and six value
    blocks (scissor, viewport, blend, depth test, clear and mask state). Each
    setter compares the requested value with its cached one, by reference for
    the program and the framebuffer and by value for the blocks, and calls the
    device only when they differ.

    What a setter emits is given by a transition function (cached value,
    requested value) -> device calls. Replaying the device log through a
    `DriverState` gives what the GPU has bound as far as the calls reveal it;
    `Mirrored` says that this never contradicts the caches. */
module RenderingContexts {
  import opened Wrappers
  import opened WebGL

  // ----- value blocks (Box2.ts, BlendState.ts, ... are not part of this model;
  //       their `equals`/`clone`/`copy` are structural equality and value copy) -----

  datatype Box2 = Box2(x: real, y: real, width: real, height: real)

  datatype BlendState = BlendState(
    enabled: bool,
    equation: int,
    sourceRGBFactor: int,
    destRGBFactor: int,
    sourceAlphaFactor: int,
    destAlphaFactor: int)

  datatype DepthTestState = DepthTestState(enabled: bool, func: int)

  datatype Color3 = Color3(r: real, g: real, b: real)

  datatype ClearState = ClearState(color: Color3, alpha: real, depth: real, stencil: int)

  datatype MaskState = MaskState(red: bool, green: bool, blue: bool, alpha: bool, depth: bool, stencil: int)

  // GL enumeration values used by the default blocks.
  const GlZero := 0
  const GlOne := 1
  const GlLess := 0x0201
  const GlFuncAdd := 0x8006

  // The initial value of each cached block (`new Box2()`, `new BlendState()`, ...).
  const DefaultBox2 := Box2(0.0, 0.0, 0.0, 0.0)
  const DefaultBlendState := BlendState(false, GlFuncAdd, GlOne, GlZero, GlOne, GlZero)
  const DefaultDepthTestState := DepthTestState(false, GlLess)
  const DefaultClearState := ClearState(Color3(0.0, 0.0, 0.0), 0.0, 1.0, 0)
  const DefaultMaskState := MaskState(true, true, true, true, true, 0xFF)

  // ----- what the driver has bound, as revealed by the calls made so far -----

  /** Each field is None until a call has set it. */
  datatype DriverState = DriverState(
    program: Option<Option<ProgramHandle>>,
    framebuffer: Option<Option<FramebufferHandle>>,
    scissor: Option<Box2>,
    viewport: Option<Box2>,
    blendEnabled: Option<bool>,
    blendEquation: Option<int>,
    blendFunc: Option<(int, int, int, int)>,
    depthTestEnabled: Option<bool>,
    depthFunc: Option<int>,
    clearColor: Option<(real, real, real, real)>,
    clearDepth: Option<real>,
    clearStencil: Option<int>,
    colorMask: Option<(bool, bool, bool, bool)>,
    depthMask: Option<bool>,
    stencilMask: Option<int>)

  const Unknown := DriverState(None, None, None, None, None, None, None, None, None, None, None, None, None, None, None)

  /** The effect of one device call on the bound state. Calls that set no tracked state change nothing. */
  function Step(d: DriverState, c: DeviceCall): DriverState {
    match c
    case UseProgram(p) => d.(program := Some(p))
    case BindFramebuffer(_, f) => d.(framebuffer := Some(f))
    case Scissor(x, y, w, h) => d.(scissor := Some(Box2(x, y, w, h)))
    case Viewport(x, y, w, h) => d.(viewport := Some(Box2(x, y, w, h)))
    case Enable(cap) =>
      if cap == Blend then d.(blendEnabled := Some(true)) else d.(depthTestEnabled := Some(true))
    case Disable(cap) =>
      if cap == Blend then d.(blendEnabled := Some(false)) else d.(depthTestEnabled := Some(false))
    case BlendEquation(e) => d.(blendEquation := Some(e))
    case BlendFuncSeparate(sr, dr, sa, da) => d.(blendFunc := Some((sr, dr, sa, da)))
    case DepthFunc(f) => d.(depthFunc := Some(f))
    case ClearColor(r, g, b, a) => d.(clearColor := Some((r, g, b, a)))
    case ClearDepth(z) => d.(clearDepth := Some(z))
    case ClearStencil(s) => d.(clearStencil := Some(s))
    case ColorMask(r, g, b, a) => d.(colorMask := Some((r, g, b, a)))
    case DepthMask(f) => d.(depthMask := Some(f))
    case StencilMask(m) => d.(stencilMask := Some(m))
    case _ => d
  }

  /** Replays a sequence of calls, first to last. */
  function Run(d: DriverState, calls: seq<DeviceCall>): DriverState
    decreases |calls|
  {
    if calls == [] then d else Run(Step(d, calls[0]), calls[1..])
  }

  /** Replaying two batches one after the other is replaying their concatenation. */
  lemma {:induction false} RunAppend(d: DriverState, a: seq<DeviceCall>, b: seq<DeviceCall>)
    ensures Run(d, a + b) == Run(Run(d, a), b)
    decreases |a|
  {
    if a == [] {
      assert a + b == b;
    } else {
      assert (a + b)[0] == a[0];
      assert (a + b)[1..] == a[1..] + b;
      RunAppend(Step(d, a[0]), a[1..], b);
    }
  }

  /** The calls that change state the context caches. */
  predicate SetsCachedState(c: DeviceCall) {
    || c.UseProgram? || c.BindFramebuffer? || c.Scissor? || c.Viewport? || c.Enable? || c.Disable?
    || c.BlendEquation? || c.BlendFuncSeparate? || c.DepthFunc? || c.ClearColor? || c.ClearDepth?
    || c.ClearStencil? || c.ColorMask? || c.DepthMask? || c.StencilMask?
  }

  /** Calls that set no cached state (texture and shader work) leave what the driver has bound alone. */
  lemma {:induction false} RunUncachedCalls(d: DriverState, calls: seq<DeviceCall>)
    requires forall k :: 0 <= k < |calls| ==> !SetsCachedState(calls[k])
    ensures Run(d, calls) == d
    decreases |calls|
  {
    if calls != [] {
      assert Step(d, calls[0]) == d;
      RunUncachedCalls(d, calls[1..]);
    }
  }

  lemma RunTwo(d: DriverState, a: DeviceCall, b: DeviceCall)
    ensures Run(d, [a, b]) == Step(Step(d, a), b)
  {
    assert [a, b][1..] == [b];
    assert [b][1..] == [];
    assert Run(Step(d, a), [b]) == Run(Step(Step(d, a), b), []);
  }

  lemma RunThree(d: DriverState, a: DeviceCall, b: DeviceCall, c: DeviceCall)
    ensures Run(d, [a, b, c]) == Step(Step(Step(d, a), b), c)
  {
    assert [a, b, c][1..] == [b, c];
    RunTwo(Step(d, a), b, c);
  }

  // ----- agreement between driver and cache -----

  /** The driver either has not been told this state yet or holds exactly `v`. */
  predicate Agrees<T(==)>(known: Option<T>, v: T) {
    known.None? || known == Some(v)
  }

  function ProgramHandleOf(p: Program?): Option<ProgramHandle> {
    if p == null then None else Some(p.glProgram)
  }

  function FramebufferHandleOf(f: Framebuffer?): Option<FramebufferHandle> {
    if f == null then None else Some(f.glFramebuffer)
  }

  predicate ProgramMirrored(d: DriverState, p: Program?) { Agrees(d.program, ProgramHandleOf(p)) }
  predicate FramebufferMirrored(d: DriverState, f: Framebuffer?) { Agrees(d.framebuffer, FramebufferHandleOf(f)) }
  predicate ScissorMirrored(d: DriverState, s: Box2) { Agrees(d.scissor, s) }
  predicate ViewportMirrored(d: DriverState, v: Box2) { Agrees(d.viewport, v) }

  predicate BlendMirrored(d: DriverState, bs: BlendState) {
    && Agrees(d.blendEnabled, bs.enabled)
    && Agrees(d.blendEquation, bs.equation)
    && Agrees(d.blendFunc, (bs.sourceRGBFactor, bs.destRGBFactor, bs.sourceAlphaFactor, bs.destAlphaFactor))
  }

  predicate DepthTestMirrored(d: DriverState, dts: DepthTestState) {
    Agrees(d.depthTestEnabled, dts.enabled) && Agrees(d.depthFunc, dts.func)
  }

  predicate ClearMirrored(d: DriverState, cs: ClearState) {
    && Agrees(d.clearColor, (cs.color.r, cs.color.g, cs.color.b, cs.alpha))
    && Agrees(d.clearDepth, cs.depth)
    && Agrees(d.clearStencil, cs.stencil)
  }

  predicate MaskMirrored(d: DriverState, ms: MaskState) {
    && Agrees(d.colorMask, (ms.red, ms.green, ms.blue, ms.alpha))
    && Agrees(d.depthMask, ms.depth)
    && Agrees(d.stencilMask, ms.stencil)
  }

  // ----- the transition table: cached value, requested value -> device calls -----

  function ProgramTransition(cached: Program?, requested: Program?): (calls: seq<DeviceCall>)
    ensures |calls| == if cached == requested then 0 else 1
    ensures cached != requested ==> calls[0] == UseProgram(ProgramHandleOf(requested))
  {
    if cached != requested then [UseProgram(if requested != null then Some(requested.glProgram) else None)]
    else []
  }

  function FramebufferTransition(cached: Framebuffer?, requested: Framebuffer?): (calls: seq<DeviceCall>)
    ensures |calls| == if cached == requested then 0 else 1
    ensures cached != requested ==>
      calls[0] == BindFramebuffer(FramebufferTarget, FramebufferHandleOf(requested))
  {
    if cached != requested then
      [BindFramebuffer(FramebufferTarget, if requested != null then Some(requested.glFramebuffer) else None)]
    else []
  }

  function ScissorTransition(cached: Box2, requested: Box2): (calls: seq<DeviceCall>)
    ensures |calls| == if cached == requested then 0 else 1
    ensures cached != requested ==>
      calls[0] == Scissor(requested.x, requested.y, requested.width, requested.height)
  {
    if cached != requested then [Scissor(requested.x, requested.y, requested.width, requested.height)] else []
  }

  /** The viewport setter as written: it issues `scissor`, not `viewport`, so it is the scissor
      setter's transition over the viewport cache. */
  function ViewportTransition(cached: Box2, requested: Box2): (calls: seq<DeviceCall>)
    ensures |calls| == if cached == requested then 0 else 1
    ensures cached != requested ==>
      calls[0] == Scissor(requested.x, requested.y, requested.width, requested.height)
  {
    ScissorTransition(cached, requested)
  }

  /** The viewport setter as evidently intended: it issues `viewport`. */
  function ViewportTransitionCorrected(cached: Box2, requested: Box2): (calls: seq<DeviceCall>)
    ensures |calls| == if cached == requested then 0 else 1
    ensures cached != requested ==>
      calls[0] == Viewport(requested.x, requested.y, requested.width, requested.height)
  {
    if cached != requested then [Viewport(requested.x, requested.y, requested.width, requested.height)] else []
  }

  function BlendTransition(cached: BlendState, requested: BlendState): (calls: seq<DeviceCall>)
    ensures |calls| == if cached == requested then 0 else 3
    ensures cached != requested ==>
      && calls[0] == (if requested.enabled then Enable(Blend) else Disable(Blend))
      && calls[1] == BlendEquation(requested.equation)
      && calls[2] == BlendFuncSeparate(requested.sourceRGBFactor, requested.destRGBFactor,
                                       requested.sourceAlphaFactor, requested.destAlphaFactor)
  {
    if cached != requested then
      [ if requested.enabled then Enable(Blend) else Disable(Blend),
        BlendEquation(requested.equation),
        BlendFuncSeparate(requested.sourceRGBFactor, requested.destRGBFactor,
                          requested.sourceAlphaFactor, requested.destAlphaFactor) ]
    else []
  }

  function DepthTestTransition(cached: DepthTestState, requested: DepthTestState): (calls: seq<DeviceCall>)
    ensures |calls| == if cached == requested then 0 else 2
    ensures cached != requested ==>
      && calls[0] == (if requested.enabled then Enable(DepthTest) else Disable(DepthTest))
      && calls[1] == DepthFunc(requested.func)
  {
    if cached != requested then
      [ if requested.enabled then Enable(DepthTest) else Disable(DepthTest), DepthFunc(requested.func) ]
    else []
  }

  function ClearTransition(cached: ClearState, requested: ClearState): (calls: seq<DeviceCall>)
    ensures |calls| == if cached == requested then 0 else 3
    ensures cached != requested ==>
      && calls[0] == ClearColor(requested.color.r, requested.color.g, requested.color.b, requested.alpha)
      && calls[1] == ClearDepth(requested.depth)
      && calls[2] == ClearStencil(requested.stencil)
  {
    if cached != requested then
      [ ClearColor(requested.color.r, requested.color.g, requested.color.b, requested.alpha),
        ClearDepth(requested.depth),
        ClearStencil(requested.stencil) ]
    else []
  }

  function MaskTransition(cached: MaskState, requested: MaskState): (calls: seq<DeviceCall>)
    ensures |calls| == if cached == requested then 0 else 3
    ensures cached != requested ==>
      && calls[0] == ColorMask(requested.red, requested.green, requested.blue, requested.alpha)
      && calls[1] == DepthMask(requested.depth)
      && calls[2] == StencilMask(requested.stencil)
  {
    if cached != requested then
      [ ColorMask(requested.red, requested.green, requested.blue, requested.alpha),
        DepthMask(requested.depth),
        StencilMask(requested.stencil) ]
    else []
  }

  // ----- each transition makes the driver agree with the requested value and touches nothing else -----

  lemma ProgramTransitionMirrors(d: DriverState, cached: Program?, requested: Program?)
    requires ProgramMirrored(d, cached)
    ensures var d' := Run(d, ProgramTransition(cached, requested));
      ProgramMirrored(d', requested) && d'.(program := d.program) == d
  {
  }

  lemma FramebufferTransitionMirrors(d: DriverState, cached: Framebuffer?, requested: Framebuffer?)
    requires FramebufferMirrored(d, cached)
    ensures var d' := Run(d, FramebufferTransition(cached, requested));
      FramebufferMirrored(d', requested) && d'.(framebuffer := d.framebuffer) == d
  {
  }

  lemma ScissorTransitionMirrors(d: DriverState, cached: Box2, requested: Box2)
    requires ScissorMirrored(d, cached)
    ensures var d' := Run(d, ScissorTransition(cached, requested));
      ScissorMirrored(d', requested) && d'.(scissor := d.scissor) == d
  {
  }

  /** As written, a changed viewport overwrites the driver's scissor box and leaves its viewport alone. */
  lemma ViewportTransitionEffect(d: DriverState, cached: Box2, requested: Box2)
    ensures var d' := Run(d, ViewportTransition(cached, requested));
      && d'.viewport == d.viewport
      && d'.scissor == (if cached == requested then d.scissor else Some(requested))
      && d'.(scissor := d.scissor) == d
  {
  }

  /** The finding: when a changed viewport differs from the cached scissor box, the setter as written
      leaves the driver's scissor box contradicting the scissor cache. */
  lemma ViewportSetterBreaksScissorMirror(d: DriverState, scissor: Box2, cached: Box2, requested: Box2)
    requires cached != requested && scissor != requested
    ensures !ScissorMirrored(Run(d, ViewportTransition(cached, requested)), scissor)
  {
    ViewportTransitionEffect(d, cached, requested);
  }

  lemma ViewportTransitionCorrectedMirrors(d: DriverState, cached: Box2, requested: Box2)
    requires ViewportMirrored(d, cached)
    ensures var d' := Run(d, ViewportTransitionCorrected(cached, requested));
      ViewportMirrored(d', requested) && d'.(viewport := d.viewport) == d
  {
  }

  lemma BlendTransitionMirrors(d: DriverState, cached: BlendState, requested: BlendState)
    requires BlendMirrored(d, cached)
    ensures var d' := Run(d, BlendTransition(cached, requested));
      BlendMirrored(d', requested)
      && d'.(blendEnabled := d.blendEnabled, blendEquation := d.blendEquation, blendFunc := d.blendFunc) == d
  {
    if cached != requested {
      var calls := BlendTransition(cached, requested);
      RunThree(d, calls[0], calls[1], calls[2]);
      assert calls == [calls[0], calls[1], calls[2]];
    }
  }

  lemma DepthTestTransitionMirrors(d: DriverState, cached: DepthTestState, requested: DepthTestState)
    requires DepthTestMirrored(d, cached)
    ensures var d' := Run(d, DepthTestTransition(cached, requested));
      DepthTestMirrored(d', requested)
      && d'.(depthTestEnabled := d.depthTestEnabled, depthFunc := d.depthFunc) == d
  {
    if cached != requested {
      var calls := DepthTestTransition(cached, requested);
      RunTwo(d, calls[0], calls[1]);
      assert calls == [calls[0], calls[1]];
    }
  }

  lemma ClearTransitionMirrors(d: DriverState, cached: ClearState, requested: ClearState)
    requires ClearMirrored(d, cached)
    ensures var d' := Run(d, ClearTransition(cached, requested));
      ClearMirrored(d', requested)
      && d'.(clearColor := d.clearColor, clearDepth := d.clearDepth, clearStencil := d.clearStencil) == d
  {
    if cached != requested {
      var calls := ClearTransition(cached, requested);
      RunThree(d, calls[0], calls[1], calls[2]);
      assert calls == [calls[0], calls[1], calls[2]];
    }
  }

  lemma MaskTransitionMirrors(d: DriverState, cached: MaskState, requested: MaskState)
    requires MaskMirrored(d, cached)
    ensures var d' := Run(d, MaskTransition(cached, requested));
      MaskMirrored(d', requested)
      && d'.(colorMask := d.colorMask, depthMask := d.depthMask, stencilMask := d.stencilMask) == d
  {
    if cached != requested {
      var calls := MaskTransition(cached, requested);
      RunThree(d, calls[0], calls[1], calls[2]);
      assert calls == [calls[0], calls[1], calls[2]];
    }
  }

  // ----- the context -----

  /** All other state that the context caches agrees with the driver. */
  predicate BlocksMirrored(d: DriverState, program: Program?, framebuffer: Framebuffer?,
                           blend: BlendState, depthTest: DepthTestState, clear: ClearState, mask: MaskState)
  {
    && ProgramMirrored(d, program)
    && FramebufferMirrored(d, framebuffer)
    && BlendMirrored(d, blend)
    && DepthTestMirrored(d, depthTest)
    && ClearMirrored(d, clear)
    && MaskMirrored(d, mask)
  }

  class RenderingContext {
    const canvas: Canvas
    const gl: Device
    var cachedActiveProgram: Program?
    var cachedFramebuffer: Framebuffer?
    var scissor: Box2
    var viewport: Box2
    var blendState: BlendState
    var depthTestState: DepthTestState
    var clearState: ClearState
    var maskState: MaskState

    /** What the driver has bound after every call made on this context's device. */
    ghost function Driver(): DriverState
      reads this, gl
    {
      Run(Unknown, gl.log)
    }

    /** Every cached field except scissor and viewport agrees with the driver. */
    ghost predicate OthersMirrored()
      reads this, gl
    {
      BlocksMirrored(Driver(), cachedActiveProgram, cachedFramebuffer,
                     blendState, depthTestState, clearState, maskState)
    }

    /** The cache never contradicts what the driver has bound. */
    ghost predicate Mirrored()
      reads this, gl
    {
      OthersMirrored() && ScissorMirrored(Driver(), scissor) && ViewportMirrored(Driver(), viewport)
    }

    /** Calls that set no cached state, made by other objects on this context's device, keep the mirror. */
    lemma UncachedCallsKeepMirror(before: seq<DeviceCall>, calls: seq<DeviceCall>)
      requires gl.log == before + calls
      requires forall k :: 0 <= k < |calls| ==> !SetsCachedState(calls[k])
      ensures Run(Unknown, before) == Driver()
    {
      RunAppend(Unknown, before, calls);
      RunUncachedCalls(Run(Unknown, before), calls);
    }

    /** The caches as a new context holds them. */
    ghost predicate Initial()
      reads this
    {
      && cachedActiveProgram == null && cachedFramebuffer == null
      && scissor == DefaultBox2 && viewport == DefaultBox2
      && blendState == DefaultBlendState && depthTestState == DefaultDepthTestState
      && clearState == DefaultClearState && maskState == DefaultMaskState
    }

    /** The context over a canvas whose webgl2 context is `gl`; see `New` for the failing case. */
    constructor Of(canvas: Canvas, gl: Device)
      requires canvas.webgl2 == gl
      ensures this.canvas == canvas && this.gl == gl && Initial()
      ensures gl.log == [] ==> Mirrored()
    {
      this.canvas := canvas;
      this.gl := gl;
      cachedActiveProgram, cachedFramebuffer := null, null;
      scissor, viewport := DefaultBox2, DefaultBox2;
      blendState, depthTestState := DefaultBlendState, DefaultDepthTestState;
      clearState, maskState := DefaultClearState, DefaultMaskState;
    }

    /** `new RenderingContext(canvas)`: fails when the canvas has no webgl2 context. */
    static method New(canvas: Canvas) returns (r: Result<RenderingContext>)
      ensures r.Failure? <==> canvas.webgl2 == null
      ensures r.Failure? ==> r.error == "webgl2 not supported"
      ensures r.Success? ==> fresh(r.value) && r.value.canvas == canvas && r.value.gl == canvas.webgl2
      ensures r.Success? ==> r.value.Initial()
      ensures canvas.webgl2 != null && canvas.webgl2.log == [] ==> r.Success? && r.value.Mirrored()
    {
      var gl := canvas.webgl2;
      if gl == null {
        return Failure("webgl2 not supported");
      }
      var c := new RenderingContext.Of(canvas, gl);
      r := Success(c);
    }

    /** `set program`: elided when the same reference is cached, otherwise one useProgram. */
    method SetProgram(program: Program?)
      modifies this`cachedActiveProgram, gl
      ensures gl.log == old(gl.log) + ProgramTransition(old(cachedActiveProgram), program)
      ensures cachedActiveProgram == program
      ensures old(Mirrored()) ==> Mirrored()
    {
      ghost var d := Driver();
      ghost var calls := ProgramTransition(cachedActiveProgram, program);
      if cachedActiveProgram != program {
        if program != null {
          gl.Issue(UseProgram(Some(program.glProgram)));
        } else {
          gl.Issue(UseProgram(None));
        }
        cachedActiveProgram := program;
      }
      assert gl.log == old(gl.log) + calls;
      RunAppend(Unknown, old(gl.log), calls);
      if old(Mirrored()) {
        ProgramTransitionMirrors(d, old(cachedActiveProgram), program);
      }
    }

    /** `set framebuffer`: elided when the same reference is cached, otherwise one bindFramebuffer. */
    method SetFramebuffer(framebuffer: Framebuffer?)
      modifies this`cachedFramebuffer, gl
      ensures gl.log == old(gl.log) + FramebufferTransition(old(cachedFramebuffer), framebuffer)
      ensures cachedFramebuffer == framebuffer
      ensures old(Mirrored()) ==> Mirrored()
    {
      ghost var d := Driver();
      ghost var calls := FramebufferTransition(cachedFramebuffer, framebuffer);
      if cachedFramebuffer != framebuffer {
        gl.Issue(BindFramebuffer(FramebufferTarget,
          if framebuffer != null then Some(framebuffer.glFramebuffer) else None));
        cachedFramebuffer := framebuffer;
      }
      assert gl.log == old(gl.log) + calls;
      RunAppend(Unknown, old(gl.log), calls);
      if old(Mirrored()) {
        FramebufferTransitionMirrors(d, old(cachedFramebuffer), framebuffer);
      }
    }

    /** `set scissor`: compared by value. */
    method SetScissor(s: Box2)
      modifies this`scissor, gl
      ensures gl.log == old(gl.log) + ScissorTransition(old(scissor), s)
      ensures scissor == s
      ensures old(Mirrored()) ==> Mirrored()
    {
      ghost var d := Driver();
      ghost var calls := ScissorTransition(scissor, s);
      if scissor != s {
        gl.Issue(Scissor(s.x, s.y, s.width, s.height));
        scissor := s;
      }
      assert gl.log == old(gl.log) + calls;
      RunAppend(Unknown, old(gl.log), calls);
      if old(Mirrored()) {
        ScissorTransitionMirrors(d, old(scissor), s);
      }
    }

    /** `set viewport` as written: a changed viewport is sent to the device as a scissor box.
        The other blocks stay mirrored; the scissor mirror is lost (see ViewportSetterBreaksScissorMirror). */
    method SetViewport(v: Box2)
      modifies this`viewport, gl
      ensures gl.log == old(gl.log) + ViewportTransition(old(viewport), v)
      ensures viewport == v
      ensures Driver().viewport == old(Driver().viewport)
      ensures old(OthersMirrored()) ==> OthersMirrored()
      ensures old(viewport) == v ==> gl.log == old(gl.log)
    {
      ghost var d := Driver();
      ghost var calls := ViewportTransition(viewport, v);
      if viewport != v {
        gl.Issue(Scissor(v.x, v.y, v.width, v.height));
        viewport := v;
      }
      assert gl.log == old(gl.log) + calls;
      RunAppend(Unknown, old(gl.log), calls);
      ViewportTransitionEffect(d, old(viewport), v);
    }

    /** `set viewport` as evidently intended: a changed viewport issues one `viewport` call. */
    method SetViewportCorrected(v: Box2)
      modifies this`viewport, gl
      ensures gl.log == old(gl.log) + ViewportTransitionCorrected(old(viewport), v)
      ensures viewport == v
      ensures old(Mirrored()) ==> Mirrored()
    {
      ghost var d := Driver();
      ghost var calls := ViewportTransitionCorrected(viewport, v);
      if viewport != v {
        gl.Issue(Viewport(v.x, v.y, v.width, v.height));
        viewport := v;
      }
      assert gl.log == old(gl.log) + calls;
      RunAppend(Unknown, old(gl.log), calls);
      if old(Mirrored()) {
        ViewportTransitionCorrectedMirrors(d, old(viewport), v);
      }
    }

    /** `set blendState`: enable or disable BLEND, then blendEquation, then blendFuncSeparate. */
    method SetBlendState(bs: BlendState)
      modifies this`blendState, gl
      ensures gl.log == old(gl.log) + BlendTransition(old(blendState), bs)
      ensures blendState == bs
      ensures old(Mirrored()) ==> Mirrored()
    {
      ghost var d := Driver();
      ghost var calls := BlendTransition(blendState, bs);
      if blendState != bs {
        if bs.enabled {
          gl.Issue(Enable(Blend));
        } else {
          gl.Issue(Disable(Blend));
        }
        gl.Issue(BlendEquation(bs.equation));
        gl.Issue(BlendFuncSeparate(bs.sourceRGBFactor, bs.destRGBFactor, bs.sourceAlphaFactor, bs.destAlphaFactor));
        blendState := bs;
      }
      assert gl.log == old(gl.log) + calls;
      RunAppend(Unknown, old(gl.log), calls);
      if old(Mirrored()) {
        BlendTransitionMirrors(d, old(blendState), bs);
      }
    }

    /** `set depthTestState`: enable or disable DEPTH_TEST, then depthFunc. */
    method SetDepthTestState(dts: DepthTestState)
      modifies this`depthTestState, gl
      ensures gl.log == old(gl.log) + DepthTestTransition(old(depthTestState), dts)
      ensures depthTestState == dts
      ensures old(Mirrored()) ==> Mirrored()
    {
      ghost var d := Driver();
      ghost var calls := DepthTestTransition(depthTestState, dts);
      if depthTestState != dts {
        if dts.enabled {
          gl.Issue(Enable(DepthTest));
        } else {
          gl.Issue(Disable(DepthTest));
        }
        gl.Issue(DepthFunc(dts.func));
        depthTestState := dts;
      }
      assert gl.log == old(gl.log) + calls;
      RunAppend(Unknown, old(gl.log), calls);
      if old(Mirrored()) {
        DepthTestTransitionMirrors(d, old(depthTestState), dts);
      }
    }

    /** `set clearState`: clearColor, clearDepth, clearStencil. */
    method SetClearState(cs: ClearState)
      modifies this`clearState, gl
      ensures gl.log == old(gl.log) + ClearTransition(old(clearState), cs)
      ensures clearState == cs
      ensures old(Mirrored()) ==> Mirrored()
    {
      ghost var d := Driver();
      ghost var calls := ClearTransition(clearState, cs);
      if clearState != cs {
        gl.Issue(ClearColor(cs.color.r, cs.color.g, cs.color.b, cs.alpha));
        gl.Issue(ClearDepth(cs.depth));
        gl.Issue(ClearStencil(cs.stencil));
        clearState := cs;
      }
      assert gl.log == old(gl.log) + calls;
      RunAppend(Unknown, old(gl.log), calls);
      if old(Mirrored()) {
        ClearTransitionMirrors(d, old(clearState), cs);
      }
    }

    /** `set maskState`: colorMask, depthMask, stencilMask. */
    method SetMaskState(ms: MaskState)
      modifies this`maskState, gl
      ensures gl.log == old(gl.log) + MaskTransition(old(maskState), ms)
      ensures maskState == ms
      ensures old(Mirrored()) ==> Mirrored()
    {
      ghost var d := Driver();
      ghost var calls := MaskTransition(maskState, ms);
      if maskState != ms {
        gl.Issue(ColorMask(ms.red, ms.green, ms.blue, ms.alpha));
        gl.Issue(DepthMask(ms.depth));
        gl.Issue(StencilMask(ms.stencil));
        maskState := ms;
      }
      assert gl.log == old(gl.log) + calls;
      RunAppend(Unknown, old(gl.log), calls);
      if old(Mirrored()) {
        MaskTransitionMirrors(d, old(maskState), ms);
      }
    }
  }
}
