/** CPU-side textures (src/lib/textures/Texture.ts): a versioned, disposable record of an image
    and the sampling parameters to upload it with. */
module Textures {
  import opened WebGL

  /** `ArrayBufferImage | HTMLImageElement`: raw bytes with a size, or an image element
      (identified by an opaque id) with its size. */
  datatype Image =
    | ArrayBufferImage(data: seq<bv8>, width: nat, height: nat)
    | HtmlImageElement(element: nat, width: nat, height: nat)

  class Texture {
    var disposed: bool
    const uuid: string
    var version: nat
    var name: string
    var size: Vector2
    var image: Image
    var wrapS: TextureWrap
    var wrapT: TextureWrap
    var magFilter: TextureFilter
    var minFilter: TextureFilter
    var pixelFormat: PixelFormat
    var dataType: DataType
    var generateMipmaps: bool
    var anisotropyLevels: int

    /** `new Texture(image, ...)` with the source's default arguments; `uuid` stands for the
        value generateUUID returns. */
    constructor (uuid: string, image: Image,
                 wrapS: TextureWrap := ClampToEdge, wrapT: TextureWrap := ClampToEdge,
                 magFilter: TextureFilter := Linear, minFilter: TextureFilter := Linear,
                 pixelFormat: PixelFormat := RGBA, dataType: DataType := UnsignedByte,
                 generateMipmaps: bool := true, anisotropyLevels: int := 1)
      ensures this.uuid == uuid && version == 0 && !disposed && name == ""
      ensures size == Vector2(image.width as real, image.height as real)
      ensures this.image == image
      ensures this.wrapS == wrapS && this.wrapT == wrapT
      ensures this.magFilter == magFilter && this.minFilter == minFilter
      ensures this.pixelFormat == pixelFormat && this.dataType == dataType
      ensures this.generateMipmaps == generateMipmaps && this.anisotropyLevels == anisotropyLevels
    {
      disposed := false;
      this.uuid := uuid;
      version := 0;
      name := "";
      this.image := image;
      this.wrapS, this.wrapT := wrapS, wrapT;
      this.magFilter, this.minFilter := magFilter, minFilter;
      this.pixelFormat, this.dataType := pixelFormat, dataType;
      this.generateMipmaps, this.anisotropyLevels := generateMipmaps, anisotropyLevels;
      size := Vector2(image.width as real, image.height as real);
    }

    /** `copy(source)`: takes over nine fields; uuid, version, disposed, size and generateMipmaps
        stay as they were (the frame says so), and the version is not bumped. */
    method Copy(source: Texture)
      modifies this`name, this`image, this`wrapS, this`wrapT, this`magFilter, this`minFilter
      modifies this`pixelFormat, this`dataType, this`anisotropyLevels
      ensures name == old(source.name) && image == old(source.image)
      ensures wrapS == old(source.wrapS) && wrapT == old(source.wrapT)
      ensures magFilter == old(source.magFilter) && minFilter == old(source.minFilter)
      ensures pixelFormat == old(source.pixelFormat) && dataType == old(source.dataType)
      ensures anisotropyLevels == old(source.anisotropyLevels)
    {
      name := source.name;
      image := source.image;
      wrapS := source.wrapS;
      wrapT := source.wrapT;
      magFilter := source.magFilter;
      minFilter := source.minFilter;
      pixelFormat := source.pixelFormat;
      dataType := source.dataType;
      anisotropyLevels := source.anisotropyLevels;
    }

    /** `dirty()`: one more version. */
    method Dirty()
      modifies this`version
      ensures version == old(version) + 1
    {
      version := version + 1;
    }

    /** `dispose()`: the first call sets `disposed` and bumps the version; later calls change nothing. */
    method Dispose()
      modifies this`disposed, this`version
      ensures disposed
      ensures version == if old(disposed) then old(version) else old(version) + 1
    {
      if !disposed {
        disposed := true;
        Dirty();
      }
    }
  }

  /** Disposing twice has the observable effect of disposing once. */
  method DisposeTwiceIsDisposeOnce(t: Texture)
    modifies t
    ensures t.disposed
    ensures t.version == if old(t.disposed) then old(t.version) else old(t.version) + 1
  {
    t.Dispose();
    t.Dispose();
  }
}
