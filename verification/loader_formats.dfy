/**
  The scene loader's conversions of glTF values into wgpu and glam ones:
  sampler wrap modes and filters (section 3.8.4 of the glTF 2.0
  specification), node transforms (section 3.5.3), and image data into the
  8-bit RGBA texture every material texture is uploaded as.
 */
module LoaderFormats {
  import opened Common
  import opened GltfDocument
  import Gpu

  /** `WrappingMode::to_wgpu`. */
  function WrapToWgpu(w: WrappingMode): (a: Gpu.AddressMode)
    ensures w == ClampToEdge <==> a == Gpu.ClampToEdge
    ensures w == MirroredRepeat <==> a == Gpu.MirrorRepeat
    ensures w == Repeat <==> a == Gpu.Repeat
  {
    match w
    case ClampToEdge => Gpu.ClampToEdge
    case MirroredRepeat => Gpu.MirrorRepeat
    case Repeat => Gpu.Repeat
  }

  /** The wrap map loses nothing and never yields the border mode glTF lacks. */
  lemma WrapToWgpuInjective(v: WrappingMode, w: WrappingMode)
    ensures WrapToWgpu(v) == WrapToWgpu(w) ==> v == w
    ensures WrapToWgpu(w) != Gpu.ClampToBorder
  {
  }

  /** `MagFilter::to_wgpu`. */
  function MagToWgpu(f: MagFilter): (m: Gpu.FilterMode)
    ensures f == MagNearest <==> m == Gpu.Nearest
    ensures f == MagLinear <==> m == Gpu.Linear
  {
    match f
    case MagNearest => Gpu.Nearest
    case MagLinear => Gpu.Linear
  }

  /**
    `MinFilter::to_wgpu`: only the minification filter is kept, and it is
    nearest exactly for the two variants that filter nearest at both levels.
   */
  function MinToWgpu(f: MinFilter): (m: Gpu.FilterMode)
    ensures m == Gpu.Nearest <==> f == MinNearest || f == NearestMipmapNearest
    ensures m == Gpu.Linear <==> f != MinNearest && f != NearestMipmapNearest
  {
    match f
    case MinNearest => Gpu.Nearest
    case MinLinear => Gpu.Linear
    case NearestMipmapNearest => Gpu.Nearest
    case LinearMipmapNearest => Gpu.Linear
    case NearestMipmapLinear => Gpu.Linear
    case LinearMipmapLinear => Gpu.Linear
  }

  /**
    The min map agrees with the mag map on the two plain filters, and a
    mipmapped filter is linear as soon as either of its two parts is.
   */
  lemma MinToWgpuAgreesWithMag()
    ensures MinToWgpu(MinNearest) == MagToWgpu(MagNearest) && MinToWgpu(MinLinear) == MagToWgpu(MagLinear)
    ensures MinToWgpu(LinearMipmapNearest) == MinToWgpu(NearestMipmapLinear) == MinToWgpu(LinearMipmapLinear) == Gpu.Linear
  {
  }

  /**
    The sampler of a document texture: wrap s and t for u and v, t again for
    w, the filters mapped with `Linear` standing in for a missing one, and a
    linear mipmap filter.
   */
  function SamplerDescriptorOf(s: GltfSampler): (r: Gpu.SamplerDescriptor)
    ensures r.addressModeU == WrapToWgpu(s.wrapS)
    ensures r.addressModeV == WrapToWgpu(s.wrapT) && r.addressModeW == WrapToWgpu(s.wrapT)
    ensures r.magFilter == if s.magFilter.Some? then MagToWgpu(s.magFilter.value) else Gpu.Linear
    ensures r.minFilter == if s.minFilter.Some? then MinToWgpu(s.minFilter.value) else Gpu.Linear
    ensures r.mipmapFilter == Gpu.Linear
  {
    var mag := if s.magFilter.Some? then s.magFilter.value else MagLinear;
    var min := if s.minFilter.Some? then s.minFilter.value else MinLinear;
    Gpu.SamplerDescriptor(WrapToWgpu(s.wrapS), WrapToWgpu(s.wrapT), WrapToWgpu(s.wrapT), MagToWgpu(mag), MinToWgpu(min), Gpu.Linear)
  }

  /**
    `Transform::to_glam`: a matrix is taken as it is; translation, rotation
    and scale become the rotation-translation matrix times the scale matrix,
    so the scale is applied first.
   */
  function ToGlam(t: Transform): (m: Mat4)
    ensures t.Matrix? ==> m == Mat4([FromColumns(t.columns)])
    ensures t.Decomposed? ==> |m.factors| == 2
    ensures t.Decomposed? ==> m.factors[0] == RotationTranslation(t.rotation, t.translation)
    ensures t.Decomposed? ==> m.factors[1] == Scale(t.scale)
  {
    match t
    case Matrix(columns) => Mat4([FromColumns(columns)])
    case Decomposed(translation, rotation, scale) =>
      Mul(Mat4([RotationTranslation(rotation, translation)]), Mat4([Scale(scale)]))
  }

  /** An 8-bit RGBA image, row by row, four bytes a pixel. */
  datatype RgbaImage = RgbaImage(width: nat, height: nat, bytes: seq<u8>)

  /** The RGBA bytes of `pixels` read as 8-bit RGB: each pixel gains an opaque alpha. */
  function RgbToRgba(pixels: seq<u8>, count: nat): (r: seq<u8>)
    requires |pixels| >= 3 * count
    ensures |r| == 4 * count
    ensures forall k :: 0 <= k < 4 * count && k % 4 < 3 ==> r[k] == pixels[3 * (k / 4) + k % 4]
    ensures forall k :: 0 <= k < 4 * count && k % 4 == 3 ==> r[k] == 255
  {
    seq(4 * count, k requires 0 <= k < 4 * count => if k % 4 == 3 then 255 else pixels[3 * (k / 4) + k % 4])
  }

  /**
    `gltf_to_rgba8unorm`: 8-bit RGB is widened to RGBA, 8-bit RGBA is taken as
    it is, and both abort when the pixel buffer is shorter than the image
    needs; every other format aborts as not implemented.
   */
  function GltfToRgba8(image: ImageData): (r: Outcome<RgbaImage>)
    ensures r.Ok? <==>
      (image.format == R8G8B8 && |image.pixels| >= 3 * (image.width * image.height)) ||
      (image.format == R8G8B8A8 && |image.pixels| >= 4 * (image.width * image.height))
    ensures !r.Ok? ==> r.Panic?
    ensures r.Ok? ==> r.value.width == image.width && r.value.height == image.height
    ensures r.Ok? && image.format == R8G8B8 ==> r.value.bytes == RgbToRgba(image.pixels, image.width * image.height)
    ensures r.Ok? && image.format == R8G8B8A8 ==> r.value.bytes == image.pixels
    ensures r.Ok? ==> |r.value.bytes| >= 4 * (image.width * image.height)
  {
    var count := image.width * image.height;
    match image.format
    case R8G8B8 =>
      if |image.pixels| < 3 * count then Panic("called `Option::unwrap()` on a `None` value")
      else Ok(RgbaImage(image.width, image.height, RgbToRgba(image.pixels, count)))
    case R8G8B8A8 =>
      if |image.pixels| < 4 * count then Panic("called `Option::unwrap()` on a `None` value")
      else Ok(RgbaImage(image.width, image.height, image.pixels))
    case _ => Panic("not yet implemented")
  }

  /**
    `load_gltf_texture`: a sampled, copy-destination RGBA texture of the
    image's size, one layer and one mip level, holding the converted bytes.
   */
  function LoadGltfTexture(image: ImageData): (r: Outcome<Gpu.Texture>)
    ensures r.Ok? <==> GltfToRgba8(image).Ok?
    ensures r.Ok? ==> r.value == Gpu.Texture(None, Gpu.Extent3d(image.width, image.height, 1), Gpu.Rgba8Unorm,
      {Gpu.TextureBindingUsage, Gpu.CopyDstTextureUsage}, 1, GltfToRgba8(image).value.bytes)
  {
    var rgba :- GltfToRgba8(image);
    Ok(Gpu.Texture(None, Gpu.Extent3d(rgba.width, rgba.height, 1), Gpu.Rgba8Unorm,
      {Gpu.TextureBindingUsage, Gpu.CopyDstTextureUsage}, 1, rgba.bytes))
  }
}
