/** Compiled GPU shaders (src/renderers/webgl2/Shader.ts). */
module Shaders {
  import opened Wrappers
  import opened WebGL
  import opened RenderingContexts

  const CompileErrorPrefix := "could not compile shader: "

  /** How a template literal renders a string-or-null value. */
  function Interpolated(info: Option<string>): string {
    match info
    case None => "null"
    case Some(s) => s
  }

  function CompileErrorMessage(info: Option<string>): string {
    CompileErrorPrefix + Interpolated(info)
  }

  /** The error message starts with the fixed prefix and carries the driver's info log whole. */
  lemma CompileErrorMessageCarriesLog(info: Option<string>)
    ensures var m := CompileErrorMessage(info);
      && |m| >= |CompileErrorPrefix| && m[..|CompileErrorPrefix|] == CompileErrorPrefix
      && (info.Some? ==> m[|CompileErrorPrefix|..] == info.value)
      && (info.None? ==> m[|CompileErrorPrefix|..] == "null")
  {
    var m := CompileErrorMessage(info);
    assert m == CompileErrorPrefix + Interpolated(info);
    assert m[..|CompileErrorPrefix|] == CompileErrorPrefix;
    assert m[|CompileErrorPrefix|..] == Interpolated(info);
  }

  /** Distinct info logs give distinct messages, except that a null log and the log "null" coincide. */
  lemma CompileErrorMessageDeterminesLog(a: Option<string>, b: Option<string>)
    requires CompileErrorMessage(a) == CompileErrorMessage(b)
    ensures Interpolated(a) == Interpolated(b)
  {
    CompileErrorMessageCarriesLog(a);
    CompileErrorMessageCarriesLog(b);
  }

  /** The calls made after a successful createShader returning `h`: the info log is only
      asked for when compilation failed. */
  function CompileCalls(h: ShaderHandle, sourceCode: string, compiled: bool): seq<DeviceCall> {
    [ShaderSource(h, sourceCode), CompileShader(h), GetCompileStatus(h)]
    + (if compiled then [] else [GetShaderInfoLog(h)])
  }

  /** The calls the constructor makes, given what the device answered. */
  function ConstructionCalls(created: Option<ShaderHandle>, sourceCode: string, shaderType: ShaderType,
                             compiled: bool): seq<DeviceCall>
  {
    match created
    case None => [CreateShader(shaderType)]
    case Some(h) => [CreateShader(shaderType)] + CompileCalls(h, sourceCode, compiled)
  }

  /** Source is set before compiling, the status is queried after, and a failed compilation
      deletes nothing: the shader object is left behind. */
  lemma ConstructionCallsOrder(h: ShaderHandle, sourceCode: string, shaderType: ShaderType, compiled: bool)
    ensures var calls := ConstructionCalls(Some(h), sourceCode, shaderType, compiled);
      && calls[0] == CreateShader(shaderType) && calls[1] == ShaderSource(h, sourceCode)
      && calls[2] == CompileShader(h) && calls[3] == GetCompileStatus(h)
      && (GetShaderInfoLog(h) in calls <==> !compiled)
      && DeleteShader(h) !in calls
  {
    var calls := ConstructionCalls(Some(h), sourceCode, shaderType, compiled);
    assert calls == [CreateShader(shaderType), ShaderSource(h, sourceCode), CompileShader(h), GetCompileStatus(h)]
      + (if compiled then [] else [GetShaderInfoLog(h)]);
  }

  /** Shader construction makes no call that sets state a rendering context caches. */
  lemma ConstructionCallsSetNoCachedState(created: Option<ShaderHandle>, sourceCode: string,
                                          shaderType: ShaderType, compiled: bool)
    ensures var calls := ConstructionCalls(created, sourceCode, shaderType, compiled);
      forall k :: 0 <= k < |calls| ==> !SetsCachedState(calls[k])
  {
    var calls := ConstructionCalls(created, sourceCode, shaderType, compiled);
    if created.Some? {
      var h := created.value;
      assert calls == [CreateShader(shaderType), ShaderSource(h, sourceCode), CompileShader(h), GetCompileStatus(h)]
        + (if compiled then [] else [GetShaderInfoLog(h)]);
    }
  }

  class Shader {
    var disposed: bool
    const glShader: ShaderHandle
    const context: RenderingContext
    const sourceCode: string
    const shaderType: ShaderType

    /** How many deleteShader calls this object has made (ghost bookkeeping). */
    ghost var deleteCalls: nat

    ghost predicate Valid()
      reads this
    {
      deleteCalls == if disposed then 1 else 0
    }

    /** The object once its device calls have succeeded; see `New`. */
    constructor Of(context: RenderingContext, sourceCode: string, shaderType: ShaderType, glShader: ShaderHandle)
      ensures this.context == context && this.sourceCode == sourceCode
      ensures this.shaderType == shaderType && this.glShader == glShader
      ensures !disposed && Valid()
    {
      this.context := context;
      this.sourceCode := sourceCode;
      this.shaderType := shaderType;
      this.glShader := glShader;
      disposed := false;
      deleteCalls := 0;
    }

    /** `new Shader(context, sourceCode, shaderType)`: throws "createShader failed" when the device
        returns no shader and "could not compile shader: " followed by the info log when the
        compile status is false. The ghost results are the device's answers. */
    static method New(context: RenderingContext, sourceCode: string, shaderType: ShaderType)
      returns (r: Result<Shader>, ghost created: Option<ShaderHandle>, ghost compiled: bool,
               ghost info: Option<string>)
      modifies context.gl
      ensures context.gl.log == old(context.gl.log) + ConstructionCalls(created, sourceCode, shaderType, compiled)
      ensures created.None? ==> r == Failure("createShader failed")
      ensures created.Some? && !compiled ==> r == Failure(CompileErrorMessage(info))
      ensures r.Success? <==> created.Some? && compiled
      ensures r.Success? ==>
        && fresh(r.value) && r.value.glShader == created.value && r.value.context == context
        && r.value.sourceCode == sourceCode && r.value.shaderType == shaderType
        && !r.value.disposed && r.value.Valid()
      ensures old(context.Mirrored()) ==> context.Mirrored()
    {
      var gl := context.gl;
      ghost var before := gl.log;
      compiled, info := false, None;
      var h := gl.CreateShader(shaderType);
      created := h;
      ConstructionCallsSetNoCachedState(created, sourceCode, shaderType, compiled);
      if h.None? {
        context.UncachedCallsKeepMirror(before, [CreateShader(shaderType)]);
        return Failure("createShader failed"), created, compiled, info;
      }
      var glShader := h.value;
      gl.Issue(ShaderSource(glShader, sourceCode));
      gl.Issue(CompileShader(glShader));
      var success := gl.GetCompileStatus(glShader);
      compiled := success;
      ConstructionCallsSetNoCachedState(created, sourceCode, shaderType, compiled);
      if !success {
        var infoLog := gl.GetShaderInfoLog(glShader);
        info := infoLog;
        assert gl.log == before + ConstructionCalls(created, sourceCode, shaderType, compiled);
        context.UncachedCallsKeepMirror(before, ConstructionCalls(created, sourceCode, shaderType, compiled));
        return Failure(CompileErrorMessage(infoLog)), created, compiled, info;
      }
      var s := new Shader.Of(context, sourceCode, shaderType, glShader);
      r := Success(s);
      assert gl.log == before + ConstructionCalls(created, sourceCode, shaderType, compiled);
      context.UncachedCallsKeepMirror(before, ConstructionCalls(created, sourceCode, shaderType, compiled));
    }

    /** `dispose()`: deleteShader on the first call only, so at most one over any sequence of calls. */
    method Dispose()
      requires Valid()
      modifies this`disposed, this`deleteCalls, context.gl
      ensures context.gl.log == old(context.gl.log) + (if old(disposed) then [] else [DeleteShader(glShader)])
      ensures disposed && Valid() && deleteCalls <= 1
      ensures old(context.Mirrored()) ==> context.Mirrored()
    {
      if !disposed {
        ghost var before := context.gl.log;
        context.gl.Issue(DeleteShader(glShader));
        context.UncachedCallsKeepMirror(before, [DeleteShader(glShader)]);
        deleteCalls := deleteCalls + 1;
        disposed := true;
      }
    }
  }
}
