/** GPU textures uploaded with texImage2D (src/renderers/webgl2/TexImage2D.ts).

    Construction is a fixed sequence of device calls: create, bind, one upload chosen by the
    kind of image, an optional mipmap generation, then four texture parameters. */
module TexImage2Ds {
  import opened Wrappers
  import opened WebGL
  import opened Textures
  import opened RenderingContexts

  /** The sampling parameters applied after the upload (TexParameters.ts is not part of this
      model; its defaults are taken to be those of Texture). */
  datatype TexParameters = TexParameters(
    generateMipmaps: bool,
    wrapS: TextureWrap,
    wrapT: TextureWrap,
    magFilter: TextureFilter,
    minFilter: TextureFilter,
    anisotropicLevels: int)

  const DefaultTexParameters := TexParameters(true, ClampToEdge, ClampToEdge, Linear, Linear, 1)

  predicate IsUpload(c: DeviceCall) {
    c.TexImage2DFromBytes? || c.TexImage2DFromElement?
  }

  /** The one texImage2D call: the internal format is passed as both format arguments. */
  function UploadCall(target: TextureTarget, level: int, internalFormat: PixelFormat, size: Vector2,
                      dataType: DataType, image: Image): (c: DeviceCall)
    ensures IsUpload(c)
    ensures c.TexImage2DFromBytes? <==> image.ArrayBufferImage?
    ensures c.TexImage2DFromBytes? ==>
      c.internalFormat == internalFormat && c.format == internalFormat && c.bytes == image.data && c.srcOffset == 0
    ensures c.TexImage2DFromElement? ==>
      c.elementInternalFormat == internalFormat && c.elementFormat == internalFormat && c.element == image.element
  {
    match image
    case ArrayBufferImage(data, _, _) =>
      TexImage2DFromBytes(target, level, internalFormat, size.x, size.y, 0, internalFormat, dataType, data, 0)
    case HtmlImageElement(element, _, _) =>
      TexImage2DFromElement(target, level, internalFormat, size.x, size.y, 0, internalFormat, dataType, element)
  }

  /** The parameter calls as written: WRAP_T is set from wrapS. */
  function ParameterCalls(target: TextureTarget, p: TexParameters): seq<DeviceCall>
  {
    [ TexParameteri(target, TextureWrapS, WrapValue(p.wrapS)),
      TexParameteri(target, TextureWrapT, WrapValue(p.wrapS)),
      TexParameteri(target, TextureMagFilter, FilterValue(p.magFilter)),
      TexParameteri(target, TextureMinFilter, FilterValue(p.minFilter)) ]
  }

  /** Every call sets a parameter of `target`, and each parameter is given exactly one value. */
  lemma ParameterCallsValues(target: TextureTarget, p: TexParameters)
    ensures forall c :: c in ParameterCalls(target, p) ==> c.TexParameteri? && c.parameterTarget == target
    ensures forall v :: TexParameteri(target, TextureWrapS, v) in ParameterCalls(target, p) <==> v == WrapValue(p.wrapS)
    ensures forall v :: TexParameteri(target, TextureWrapT, v) in ParameterCalls(target, p) <==> v == WrapValue(p.wrapS)
    ensures forall v :: TexParameteri(target, TextureMagFilter, v) in ParameterCalls(target, p) <==> v == FilterValue(p.magFilter)
    ensures forall v :: TexParameteri(target, TextureMinFilter, v) in ParameterCalls(target, p) <==> v == FilterValue(p.minFilter)
  {
  }

  /** The parameter calls as evidently intended: WRAP_T is set from wrapT. */
  function ParameterCallsCorrected(target: TextureTarget, p: TexParameters): seq<DeviceCall>
  {
    [ TexParameteri(target, TextureWrapS, WrapValue(p.wrapS)),
      TexParameteri(target, TextureWrapT, WrapValue(p.wrapT)),
      TexParameteri(target, TextureMagFilter, FilterValue(p.magFilter)),
      TexParameteri(target, TextureMinFilter, FilterValue(p.minFilter)) ]
  }

  /** Every call sets a parameter of `target`, and each parameter is given exactly one value. */
  lemma ParameterCallsCorrectedValues(target: TextureTarget, p: TexParameters)
    ensures forall c :: c in ParameterCallsCorrected(target, p) ==> c.TexParameteri? && c.parameterTarget == target
    ensures forall v :: TexParameteri(target, TextureWrapS, v) in ParameterCallsCorrected(target, p) <==> v == WrapValue(p.wrapS)
    ensures forall v :: TexParameteri(target, TextureWrapT, v) in ParameterCallsCorrected(target, p) <==> v == WrapValue(p.wrapT)
    ensures forall v :: TexParameteri(target, TextureMagFilter, v) in ParameterCallsCorrected(target, p) <==> v == FilterValue(p.magFilter)
    ensures forall v :: TexParameteri(target, TextureMinFilter, v) in ParameterCallsCorrected(target, p) <==> v == FilterValue(p.minFilter)
  {
  }

  function MipmapCalls(target: TextureTarget, generateMipmaps: bool): (calls: seq<DeviceCall>)
    ensures calls == [] || calls == [GenerateMipmap(target)]
    ensures GenerateMipmap(target) in calls <==> generateMipmaps
  {
    if generateMipmaps then [GenerateMipmap(target)] else []
  }

  /** The calls that follow a successful createTexture returning `h`. */
  function SetupCalls(h: TextureHandle, target: TextureTarget, level: int,
                      internalFormat: PixelFormat, size: Vector2, dataType: DataType,
                      image: Image, p: TexParameters): seq<DeviceCall>
  {
    [BindTexture(target, h), UploadCall(target, level, internalFormat, size, dataType, image)]
    + MipmapCalls(target, p.generateMipmaps)
    + ParameterCalls(target, p)
  }

  /** The calls the constructor makes, given what createTexture answered. */
  function ConstructionCalls(created: Option<TextureHandle>, target: TextureTarget, level: int,
                             internalFormat: PixelFormat, size: Vector2, dataType: DataType,
                             image: Image, p: TexParameters): seq<DeviceCall>
  {
    match created
    case None => [CreateTexture]
    case Some(h) => [CreateTexture] + SetupCalls(h, target, level, internalFormat, size, dataType, image, p)
  }

  /** The same, with the corrected parameter calls. */
  function ConstructionCallsCorrected(created: Option<TextureHandle>, target: TextureTarget, level: int,
                                      internalFormat: PixelFormat, size: Vector2, dataType: DataType,
                                      image: Image, p: TexParameters): seq<DeviceCall>
  {
    match created
    case None => [CreateTexture]
    case Some(h) =>
      [CreateTexture, BindTexture(target, h), UploadCall(target, level, internalFormat, size, dataType, image)]
      + MipmapCalls(target, p.generateMipmaps)
      + ParameterCallsCorrected(target, p)
  }

  function Uploads(calls: seq<DeviceCall>): nat {
    if calls == [] then 0 else (if IsUpload(calls[0]) then 1 else 0) + Uploads(calls[1..])
  }

  lemma {:induction false} UploadsAppend(x: seq<DeviceCall>, y: seq<DeviceCall>)
    ensures Uploads(x + y) == Uploads(x) + Uploads(y)
    decreases |x|
  {
    if x == [] {
      assert x + y == y;
    } else {
      assert (x + y)[0] == x[0];
      assert (x + y)[1..] == x[1..] + y;
      UploadsAppend(x[1..], y);
    }
  }

  lemma {:induction false} NoUploads(calls: seq<DeviceCall>)
    requires forall c :: c in calls ==> !IsUpload(c)
    ensures Uploads(calls) == 0
    decreases |calls|
  {
    if calls != [] {
      assert calls[0] in calls;
      NoUploads(calls[1..]);
    }
  }

  /** When createTexture succeeds the calls are createTexture, bind, the upload, a mipmap
      generation exactly when requested, and the four texture parameters last. */
  lemma ConstructionCallsShape(h: TextureHandle, target: TextureTarget, level: int,
                               internalFormat: PixelFormat, size: Vector2, dataType: DataType,
                               image: Image, p: TexParameters)
    ensures var calls := ConstructionCalls(Some(h), target, level, internalFormat, size, dataType, image, p);
      && calls[0] == CreateTexture && calls[1] == BindTexture(target, h)
      && calls[2] == UploadCall(target, level, internalFormat, size, dataType, image)
      && (GenerateMipmap(target) in calls <==> p.generateMipmaps)
      && calls[|calls| - 4..] == ParameterCalls(target, p)
    ensures ConstructionCalls(None, target, level, internalFormat, size, dataType, image, p) == [CreateTexture]
  {
    var upload := UploadCall(target, level, internalFormat, size, dataType, image);
    var mip := MipmapCalls(target, p.generateMipmaps);
    var params := ParameterCalls(target, p);
    var calls := ConstructionCalls(Some(h), target, level, internalFormat, size, dataType, image, p);
    assert calls == [CreateTexture, BindTexture(target, h), upload] + mip + params;
    assert calls[|calls| - 4..] == params;
    assert forall c :: c in params ==> c.TexParameteri? by {
      ParameterCallsValues(target, p);
    }
  }

  /** A successful construction uploads the image exactly once. */
  lemma ExactlyOneUpload(h: TextureHandle, target: TextureTarget, level: int,
                         internalFormat: PixelFormat, size: Vector2, dataType: DataType,
                         image: Image, p: TexParameters)
    ensures Uploads(ConstructionCalls(Some(h), target, level, internalFormat, size, dataType, image, p)) == 1
  {
    var upload := UploadCall(target, level, internalFormat, size, dataType, image);
    var mip := MipmapCalls(target, p.generateMipmaps);
    var params := ParameterCalls(target, p);
    var setup := SetupCalls(h, target, level, internalFormat, size, dataType, image, p);
    assert setup == [BindTexture(target, h)] + [upload] + mip + params;
    assert Uploads([upload]) == 1 by {
      assert [upload][1..] == [];
    }
    assert Uploads([BindTexture(target, h)]) == 0 by {
      assert [BindTexture(target, h)][1..] == [];
    }
    assert Uploads([CreateTexture]) == 0 by {
      assert [CreateTexture][1..] == [];
    }
    NoUploads(mip);
    assert forall c :: c in params ==> !IsUpload(c) by {
      ParameterCallsValues(target, p);
    }
    NoUploads(params);
    UploadsAppend([BindTexture(target, h)], [upload]);
    UploadsAppend([BindTexture(target, h)] + [upload], mip);
    UploadsAppend([BindTexture(target, h)] + [upload] + mip, params);
    UploadsAppend([CreateTexture], setup);
  }

  /** Texture construction makes no call that sets state a rendering context caches. */
  lemma ConstructionCallsSetNoCachedState(created: Option<TextureHandle>, target: TextureTarget, level: int,
                                          internalFormat: PixelFormat, size: Vector2, dataType: DataType,
                                          image: Image, p: TexParameters)
    ensures var calls := ConstructionCalls(created, target, level, internalFormat, size, dataType, image, p);
      forall k :: 0 <= k < |calls| ==> !SetsCachedState(calls[k])
  {
    var calls := ConstructionCalls(created, target, level, internalFormat, size, dataType, image, p);
    if created.Some? {
      var head := [CreateTexture, BindTexture(target, created.value), UploadCall(target, level, internalFormat, size, dataType, image)];
      var mip := MipmapCalls(target, p.generateMipmaps);
      var params := ParameterCalls(target, p);
      assert calls == head + mip + params;
      assert forall c :: c in params ==> c.TexParameteri? by {
        ParameterCallsValues(target, p);
      }
      forall k | 0 <= k < |calls|
        ensures !SetsCachedState(calls[k])
      {
        assert calls[k] in head || calls[k] in mip || calls[k] in params;
      }
    }
  }

  /** The finding: whenever wrapT differs from wrapS, the texture is never given its wrapT. */
  lemma WrapTIsTakenFromWrapS(h: TextureHandle, target: TextureTarget, level: int,
                              internalFormat: PixelFormat, size: Vector2, dataType: DataType,
                              image: Image, p: TexParameters)
    requires p.wrapT != p.wrapS
    ensures TexParameteri(target, TextureWrapT, WrapValue(p.wrapS))
      in ConstructionCalls(Some(h), target, level, internalFormat, size, dataType, image, p)
    ensures TexParameteri(target, TextureWrapT, WrapValue(p.wrapT))
      !in ConstructionCalls(Some(h), target, level, internalFormat, size, dataType, image, p)
  {
    var head := [CreateTexture, BindTexture(target, h), UploadCall(target, level, internalFormat, size, dataType, image)];
    var mip := MipmapCalls(target, p.generateMipmaps);
    var params := ParameterCalls(target, p);
    assert ConstructionCalls(Some(h), target, level, internalFormat, size, dataType, image, p) == head + mip + params;
    ParameterCallsValues(target, p);
  }

  /** With the correction, the texture gets exactly the wrapT it was given. */
  lemma WrapTCorrected(h: TextureHandle, target: TextureTarget, level: int,
                       internalFormat: PixelFormat, size: Vector2, dataType: DataType,
                       image: Image, p: TexParameters)
    ensures forall v ::
      (TexParameteri(target, TextureWrapT, v)
         in ConstructionCallsCorrected(Some(h), target, level, internalFormat, size, dataType, image, p))
      <==> v == WrapValue(p.wrapT)
  {
    var head := [CreateTexture, BindTexture(target, h), UploadCall(target, level, internalFormat, size, dataType, image)];
    var mip := MipmapCalls(target, p.generateMipmaps);
    var params := ParameterCallsCorrected(target, p);
    assert ConstructionCallsCorrected(Some(h), target, level, internalFormat, size, dataType, image, p) == head + mip + params;
    ParameterCallsCorrectedValues(target, p);
  }

  class TexImage2D {
    var disposed: bool
    const glTexture: TextureHandle
    const context: RenderingContext
    const image: Image
    const target: TextureTarget
    const level: int
    const internalFormat: PixelFormat
    const size: Vector2
    const pixelFormat: PixelFormat
    const dataType: DataType
    const texParameters: TexParameters

    /** How many deleteTexture calls this object has made (ghost bookkeeping). */
    ghost var deleteCalls: nat

    ghost predicate Valid()
      reads this
    {
      deleteCalls == if disposed then 1 else 0
    }

    /** The object once its device calls are made; see `New`. */
    constructor Of(context: RenderingContext, glTexture: TextureHandle, image: Image, target: TextureTarget,
                   level: int, internalFormat: PixelFormat, size: Vector2, pixelFormat: PixelFormat,
                   dataType: DataType, texParameters: TexParameters)
      ensures this.context == context && this.glTexture == glTexture && this.image == image
      ensures this.target == target && this.level == level && this.internalFormat == internalFormat
      ensures this.size == size && this.pixelFormat == pixelFormat && this.dataType == dataType
      ensures this.texParameters == texParameters
      ensures !disposed && Valid()
    {
      this.context := context;
      this.glTexture := glTexture;
      this.image := image;
      this.target := target;
      this.level := level;
      this.internalFormat := internalFormat;
      this.size := size;
      this.pixelFormat := pixelFormat;
      this.dataType := dataType;
      this.texParameters := texParameters;
      disposed := false;
      deleteCalls := 0;
    }

    /** The four texParameteri calls, as written (WRAP_T from wrapS). */
    static method IssueParameters(gl: Device, target: TextureTarget, texParameters: TexParameters)
      modifies gl
      ensures gl.log == old(gl.log) + ParameterCalls(target, texParameters)
    {
      ghost var before := gl.log;
      ghost var sent := [];
      gl.Issue(TexParameteri(target, TextureWrapS, WrapValue(texParameters.wrapS)));
      sent := sent + [TexParameteri(target, TextureWrapS, WrapValue(texParameters.wrapS))];
      assert gl.log == before + sent;
      gl.Issue(TexParameteri(target, TextureWrapT, WrapValue(texParameters.wrapS)));
      sent := sent + [TexParameteri(target, TextureWrapT, WrapValue(texParameters.wrapS))];
      assert gl.log == before + sent;
      gl.Issue(TexParameteri(target, TextureMagFilter, FilterValue(texParameters.magFilter)));
      sent := sent + [TexParameteri(target, TextureMagFilter, FilterValue(texParameters.magFilter))];
      assert gl.log == before + sent;
      gl.Issue(TexParameteri(target, TextureMinFilter, FilterValue(texParameters.minFilter)));
      sent := sent + [TexParameteri(target, TextureMinFilter, FilterValue(texParameters.minFilter))];
      assert gl.log == before + sent;
    }

    /** The upload call, from bytes or from an image element. */
    static method IssueUpload(gl: Device, image: Image, target: TextureTarget, level: int,
                              internalFormat: PixelFormat, size: Vector2, dataType: DataType)
      modifies gl
      ensures gl.log == old(gl.log) + [UploadCall(target, level, internalFormat, size, dataType, image)]
    {
      match image {
        case ArrayBufferImage(data, _, _) =>
          gl.Issue(TexImage2DFromBytes(target, level, internalFormat, size.x, size.y, 0,
                                       internalFormat, dataType, data, 0));
        case HtmlImageElement(element, _, _) =>
          gl.Issue(TexImage2DFromElement(target, level, internalFormat, size.x, size.y, 0,
                                         internalFormat, dataType, element));
      }
    }

    /** The calls the constructor makes once createTexture has returned `glTexture`. */
    static method IssueSetup(gl: Device, glTexture: TextureHandle, image: Image, target: TextureTarget,
                             level: int, internalFormat: PixelFormat, size: Vector2,
                             dataType: DataType, texParameters: TexParameters)
      modifies gl
      ensures gl.log == old(gl.log)
        + SetupCalls(glTexture, target, level, internalFormat, size, dataType, image, texParameters)
    {
      ghost var before := gl.log;
      ghost var sent := [];
      gl.Issue(BindTexture(target, glTexture));
      sent := sent + [BindTexture(target, glTexture)];
      assert gl.log == before + sent;
      IssueUpload(gl, image, target, level, internalFormat, size, dataType);
      sent := sent + [UploadCall(target, level, internalFormat, size, dataType, image)];
      assert gl.log == before + sent;
      if texParameters.generateMipmaps {
        gl.Issue(GenerateMipmap(target));
      }
      sent := sent + MipmapCalls(target, texParameters.generateMipmaps);
      assert gl.log == before + sent;
      IssueParameters(gl, target, texParameters);
      sent := sent + ParameterCalls(target, texParameters);
    }

    /** `new TexImage2D(context, image, ...)` with the source's default arguments: throws
        "createTexture failed" when the device returns no texture. `created` is that answer. */
    static method New(context: RenderingContext, image: Image, target: TextureTarget := Texture2D,
                      level: int := 0, internalFormat: PixelFormat := RGBA,
                      size: Vector2 := Vector2(0.0, 0.0), pixelFormat: PixelFormat := RGBA,
                      dataType: DataType := UnsignedByte,
                      texParameters: TexParameters := DefaultTexParameters)
      returns (r: Result<TexImage2D>, ghost created: Option<TextureHandle>)
      modifies context.gl
      ensures context.gl.log == old(context.gl.log)
        + ConstructionCalls(created, target, level, internalFormat, size, dataType, image, texParameters)
      ensures r.Failure? <==> created.None?
      ensures r.Failure? ==> r.error == "createTexture failed"
      ensures r.Success? ==>
        && fresh(r.value) && r.value.glTexture == created.value && r.value.context == context
        && r.value.image == image && r.value.target == target && r.value.level == level
        && r.value.internalFormat == internalFormat && r.value.size == size
        && r.value.pixelFormat == pixelFormat && r.value.dataType == dataType
        && r.value.texParameters == texParameters
        && !r.value.disposed && r.value.Valid()
      ensures old(context.Mirrored()) ==> context.Mirrored()
    {
      var gl := context.gl;
      ghost var before := gl.log;
      var h := gl.CreateTexture();
      created := h;
      if h.None? {
        ConstructionCallsSetNoCachedState(created, target, level, internalFormat, size, dataType, image, texParameters);
        context.UncachedCallsKeepMirror(before, [CreateTexture]);
        return Failure("createTexture failed"), created;
      }
      var glTexture := h.value;
      IssueSetup(gl, glTexture, image, target, level, internalFormat, size, dataType, texParameters);
      assert gl.log == before + ConstructionCalls(created, target, level, internalFormat, size, dataType, image, texParameters);
      var t := new TexImage2D.Of(context, glTexture, image, target, level, internalFormat, size,
                                 pixelFormat, dataType, texParameters);
      r := Success(t);
      ghost var calls := ConstructionCalls(created, target, level, internalFormat, size, dataType, image, texParameters);
      ConstructionCallsSetNoCachedState(created, target, level, internalFormat, size, dataType, image, texParameters);
      context.UncachedCallsKeepMirror(before, calls);
    }

    /** `dispose()`: deleteTexture on the first call only, so at most one over any sequence of calls. */
    method Dispose()
      requires Valid()
      modifies this`disposed, this`deleteCalls, context.gl
      ensures context.gl.log == old(context.gl.log) + (if old(disposed) then [] else [DeleteTexture(glTexture)])
      ensures disposed && Valid() && deleteCalls <= 1
      ensures old(context.Mirrored()) ==> context.Mirrored()
    {
      if !disposed {
        ghost var before := context.gl.log;
        context.gl.Issue(DeleteTexture(glTexture));
        context.UncachedCallsKeepMirror(before, [DeleteTexture(glTexture)]);
        deleteCalls := deleteCalls + 1;
        disposed := true;
      }
    }
  }

  /** The TexImage2DPool updater: a texture with no GPU counterpart yet gets a new TexImage2D made
      from its image with every other argument defaulted; an existing one is returned unchanged
      (it is not refreshed when the texture's version has moved on). */
  method TexImage2DPoolUpdate(context: RenderingContext, texture: Texture, texImage2D: TexImage2D?)
    returns (r: Result<TexImage2D>, ghost created: Option<TextureHandle>)
    modifies context.gl
    ensures texImage2D != null ==> r == Success(texImage2D) && context.gl.log == old(context.gl.log)
    ensures texImage2D == null ==>
      && context.gl.log == old(context.gl.log)
           + ConstructionCalls(created, Texture2D, 0, RGBA, Vector2(0.0, 0.0), UnsignedByte,
                               texture.image, DefaultTexParameters)
      && (r.Failure? <==> created.None?)
      && (r.Success? ==>
            && fresh(r.value) && r.value.image == texture.image && r.value.context == context
            && r.value.glTexture == created.value
            && r.value.target == Texture2D && r.value.level == 0 && r.value.internalFormat == RGBA
            && r.value.size == Vector2(0.0, 0.0) && r.value.pixelFormat == RGBA
            && r.value.dataType == UnsignedByte && r.value.texParameters == DefaultTexParameters
            && !r.value.disposed && r.value.Valid())
    ensures old(context.Mirrored()) ==> context.Mirrored()
  {
    if texImage2D == null {
      r, created := TexImage2D.New(context, texture.image);
    } else {
      r, created := Success(texImage2D), None;
    }
  }
}
