/** The graphics device and the host objects the engine talks to.

    The WebGL2 connection is modelled as an abstract device that does nothing but
    append every call it receives to a log; calls whose answer the engine uses
    (createTexture, createShader, the compile status, the info log) return an
    arbitrary value. The DOM canvas is a record of its sizes and of the webgl2
    context it hands out. */
module WebGL {
  import opened Wrappers

  type ProgramHandle = nat
  type FramebufferHandle = nat
  type TextureHandle = nat
  type ShaderHandle = nat

  /** The capabilities toggled with enable/disable. */
  datatype Capability = Blend | DepthTest

  /** The bind target given to bindFramebuffer. */
  datatype FramebufferTarget = FramebufferTarget

  /** The targets of texImage2D. */
  datatype TextureTarget =
    | Texture2D
    | CubeMapPositiveX | CubeMapNegativeX
    | CubeMapPositiveY | CubeMapNegativeY
    | CubeMapPositiveZ | CubeMapNegativeZ

  datatype TextureWrap = ClampToEdge | Repeat | MirroredRepeat

  datatype TextureFilter =
    | Nearest | Linear
    | NearestMipmapNearest | LinearMipmapNearest
    | NearestMipmapLinear | LinearMipmapLinear

  /** Pixel formats and data types: the defaults are named, every other GL value is kept by its code. */
  datatype PixelFormat = RGBA | OtherPixelFormat(glEnum: int)
  datatype DataType = UnsignedByte | OtherDataType(glEnum: int)

  /** The texture parameters set through texParameteri. */
  datatype TexParameterName = TextureWrapS | TextureWrapT | TextureMagFilter | TextureMinFilter
  datatype TexParameterValue = WrapValue(wrap: TextureWrap) | FilterValue(filter: TextureFilter)

  datatype ShaderType = VertexShader | FragmentShader

  /** One call made on the WebGL2 rendering context. */
  datatype DeviceCall =
    | UseProgram(program: Option<ProgramHandle>)
    | BindFramebuffer(target: FramebufferTarget, framebuffer: Option<FramebufferHandle>)
    | Scissor(x: real, y: real, width: real, height: real)
    | Viewport(x: real, y: real, width: real, height: real)
    | Enable(cap: Capability)
    | Disable(cap: Capability)
    | BlendEquation(equation: int)
    | BlendFuncSeparate(srcRGB: int, dstRGB: int, srcAlpha: int, dstAlpha: int)
    | DepthFunc(func: int)
    | ClearColor(red: real, green: real, blue: real, alpha: real)
    | ClearDepth(depth: real)
    | ClearStencil(stencil: int)
    | ColorMask(maskRed: bool, maskGreen: bool, maskBlue: bool, maskAlpha: bool)
    | DepthMask(flag: bool)
    | StencilMask(mask: int)
    | CreateTexture
    | BindTexture(textureTarget: TextureTarget, texture: TextureHandle)
      /** texImage2D from an ArrayBufferView source (with its source offset). */
    | TexImage2DFromBytes(uploadTarget: TextureTarget, level: int, internalFormat: PixelFormat,
                          uploadWidth: real, uploadHeight: real, border: int,
                          format: PixelFormat, dataType: DataType, bytes: seq<bv8>, srcOffset: int)
      /** texImage2D from an image element source. */
    | TexImage2DFromElement(elementTarget: TextureTarget, elementLevel: int, elementInternalFormat: PixelFormat,
                            elementWidth: real, elementHeight: real, elementBorder: int,
                            elementFormat: PixelFormat, elementDataType: DataType, element: nat)
    | GenerateMipmap(mipmapTarget: TextureTarget)
    | TexParameteri(parameterTarget: TextureTarget, pname: TexParameterName, param: TexParameterValue)
    | DeleteTexture(deleted: TextureHandle)
    | CreateShader(shaderType: ShaderType)
    | ShaderSource(sourceShader: ShaderHandle, source: string)
    | CompileShader(compiled: ShaderHandle)
    | GetCompileStatus(queried: ShaderHandle)
    | GetShaderInfoLog(logged: ShaderHandle)
    | DeleteShader(deletedShader: ShaderHandle)

  /** The device: every call is appended to `log`. */
  class Device {
    ghost var log: seq<DeviceCall>

    constructor ()
      ensures log == []
    {
      log := [];
    }

    /** A call whose result the engine does not use. */
    method Issue(c: DeviceCall)
      modifies this
      ensures log == old(log) + [c]
    {
      log := log + [c];
    }

    /** createTexture: may return null. */
    method CreateTexture() returns (h: Option<TextureHandle>)
      modifies this
      ensures log == old(log) + [DeviceCall.CreateTexture]
    {
      h := *;
      log := log + [DeviceCall.CreateTexture];
    }

    /** createShader: may return null. */
    method CreateShader(t: ShaderType) returns (h: Option<ShaderHandle>)
      modifies this
      ensures log == old(log) + [DeviceCall.CreateShader(t)]
    {
      h := *;
      log := log + [DeviceCall.CreateShader(t)];
    }

    /** getShaderParameter(shader, COMPILE_STATUS). */
    method GetCompileStatus(h: ShaderHandle) returns (success: bool)
      modifies this
      ensures log == old(log) + [DeviceCall.GetCompileStatus(h)]
    {
      success := *;
      log := log + [DeviceCall.GetCompileStatus(h)];
    }

    /** getShaderInfoLog: may return null. */
    method GetShaderInfoLog(h: ShaderHandle) returns (info: Option<string>)
      modifies this
      ensures log == old(log) + [DeviceCall.GetShaderInfoLog(h)]
    {
      info := *;
      log := log + [DeviceCall.GetShaderInfoLog(h)];
    }
  }

  /** An HTML canvas element: `webgl2` is what getContext('webgl2') returns (null when unsupported). */
  class Canvas {
    const webgl2: Device?
    var width: int
    var height: int
    var offsetWidth: nat
    var offsetHeight: nat

    constructor (webgl2: Device?, offsetWidth: nat, offsetHeight: nat)
      ensures this.webgl2 == webgl2
      ensures this.offsetWidth == offsetWidth && this.offsetHeight == offsetHeight
      ensures width == 300 && height == 150
    {
      this.webgl2 := webgl2;
      this.offsetWidth := offsetWidth;
      this.offsetHeight := offsetHeight;
      width, height := 300, 150;
    }
  }

  /** The part of a linked program that the rendering context reads. */
  class Program {
    const glProgram: ProgramHandle

    constructor (glProgram: ProgramHandle)
      ensures this.glProgram == glProgram
    {
      this.glProgram := glProgram;
    }
  }

  /** The part of a framebuffer that the rendering context reads. */
  class Framebuffer {
    const glFramebuffer: FramebufferHandle

    constructor (glFramebuffer: FramebufferHandle)
      ensures this.glFramebuffer == glFramebuffer
    {
      this.glFramebuffer := glFramebuffer;
    }
  }

  datatype Vector2 = Vector2(x: real, y: real)
  datatype Vector3 = Vector3(x: real, y: real, z: real)
  datatype Euler3 = Euler3(x: real, y: real, z: real)
}
