/**
  The render target: either a window surface or an offscreen texture. Its
  surface configuration is the one piece of state updated in place, by
  `Reconfigure`, and every `surface.configure` call is recorded in order.
  The window's current size and the outcome of acquiring the next surface
  texture come from the windowing system and are passed in.
 */
module RenderTarget {
  import opened Common
  import opened Gpu

  /** A window surface, known only by identity. */
  datatype Surface = Surface(id: nat)

  /** `wgpu::SurfaceConfiguration`, the parts this core reads or writes. */
  datatype SurfaceConfiguration = SurfaceConfiguration(format: TextureFormat, width: u32, height: u32)

  datatype InnerTarget =
    | WindowSurface(surface: Surface)
    | TextureTarget(texture: Texture)

  /** `wgpu::SurfaceTexture`: the next image of a window's swap chain. */
  datatype SurfaceTexture = SurfaceTexture(texture: Texture)

  /** `TargetDestination`: the view to draw into and, for a window, the surface texture to present. */
  datatype TargetDestination = TargetDestination(view: TextureView, surfaceTexture: Option<SurfaceTexture>)

  /** `into_surface`: the captured surface texture, if any. */
  function IntoSurface(d: TargetDestination): Option<SurfaceTexture> {
    d.surfaceTexture
  }

  /** What `save` hands to `copy_texture_to_buffer`, and the readback buffer's size. */
  datatype CopyPlan = CopyPlan(bufferSize: nat, bytesPerRow: nat, rowsPerImage: nat, extent: Extent3d)

  /** `wgpu::COPY_BYTES_PER_ROW_ALIGNMENT`: a texture-to-buffer copy's rows start on this boundary. */
  const CopyBytesPerRowAlignment: nat := 256

  /**
    wgpu accepts a copy of `extent` with this buffer layout: each row is a
    multiple of 256 bytes and holds a row of texels, each image has at least as
    many rows as the copy, and the copy stays inside the buffer.
   */
  predicate CopyFits(p: CopyPlan) {
    p.bytesPerRow % CopyBytesPerRowAlignment == 0 &&
    p.bytesPerRow >= 4 * p.extent.width &&
    p.rowsPerImage >= p.extent.height &&
    p.bytesPerRow * p.extent.height <= p.bufferSize
  }

  /** `x.max(1)`. */
  function AtLeastOne(x: nat): (r: nat)
    ensures r >= 1 && (x >= 1 ==> r == x)
  {
    if x == 0 then 1 else x
  }

  /** The readback layout as `save` writes it: images of `width` rows. */
  function SaveLayoutAsWritten(width: nat, height: nat): (p: CopyPlan)
    ensures p.bufferSize == 4 * width * height && p.bytesPerRow == 4 * width
    ensures p.rowsPerImage == width
    ensures p.extent == Extent3d(AtLeastOne(width), AtLeastOne(height), 1)
  {
    CopyPlan(4 * width * height, 4 * width, width, Extent3d(AtLeastOne(width), AtLeastOne(height), 1))
  }

  /**
    For a target whose rows meet the alignment, the written layout is accepted
    exactly when the target is no taller than it is wide.
   */
  lemma SaveLayoutAsWrittenFitsIff(width: nat, height: nat)
    requires width > 0 && height > 0 && width % 64 == 0
    ensures CopyFits(SaveLayoutAsWritten(width, height)) <==> height <= width
  {
    assert 4 * width * height == (4 * width) * height;
  }

  /**
    A 64x128 target, whose 256-byte rows are aligned, is copied with 64 rows
    per image against a copy 128 rows high; the corrected layout fits it.
   */
  lemma SaveLayoutAsWrittenTooFewRows()
    ensures SaveLayoutAsWritten(64, 128).bytesPerRow % CopyBytesPerRowAlignment == 0
    ensures SaveLayoutAsWritten(64, 128).rowsPerImage < SaveLayoutAsWritten(64, 128).extent.height
    ensures !CopyFits(SaveLayoutAsWritten(64, 128))
    ensures CopyFits(SaveLayout(64, 128))
  {
    SaveLayoutFits(64, 128);
  }

  /** The readback layout with images of `height` rows, the number of rows the texture has. */
  function SaveLayout(width: nat, height: nat): (p: CopyPlan)
    ensures p.bufferSize == 4 * width * height && p.bytesPerRow == 4 * width
    ensures p.rowsPerImage == height
    ensures p.extent == Extent3d(AtLeastOne(width), AtLeastOne(height), 1)
  {
    CopyPlan(4 * width * height, 4 * width, height, Extent3d(AtLeastOne(width), AtLeastOne(height), 1))
  }

  /**
    For every target of positive size whose rows meet the alignment the
    corrected layout fits, and it agrees with the written one exactly on
    square targets.
   */
  lemma SaveLayoutFits(width: nat, height: nat)
    ensures width > 0 && height > 0 && width % 64 == 0 ==> CopyFits(SaveLayout(width, height))
    ensures SaveLayout(width, height) == SaveLayoutAsWritten(width, height) <==> width == height
  {
    assert 4 * width * height == (4 * width) * height;
  }

  class Target {
    const inner: InnerTarget
    var config: SurfaceConfiguration
    /** Every configuration passed to `surface.configure`, in order. */
    var configured: seq<SurfaceConfiguration>

    /**
      `reconfigure`: a window of positive size takes the window's size into the
      configuration and configures the surface with it; a texture target, or a
      window with a zero dimension, changes nothing.
     */
    method Reconfigure(windowWidth: u32, windowHeight: u32) returns (r: bool)
      modifies this
      ensures r <==> inner.WindowSurface? && windowWidth > 0 && windowHeight > 0
      ensures r ==> config == old(config).(width := windowWidth, height := windowHeight)
      ensures r ==> configured == old(configured) + [config]
      ensures !r ==> config == old(config) && configured == old(configured)
    {
      match inner
      case WindowSurface(_) =>
        if windowWidth > 0 && windowHeight > 0 {
          config := config.(width := windowWidth, height := windowHeight);
          configured := configured + [config];
          r := true;
        } else {
          r := false;
        }
      case TextureTarget(_) =>
        r := false;
    }

    /** `new_surface`: a window target, reconfigured once against the window's current size. */
    constructor NewSurface(surface: Surface, windowWidth: u32, windowHeight: u32, config: SurfaceConfiguration)
      ensures inner == WindowSurface(surface)
      ensures windowWidth > 0 && windowHeight > 0 ==>
        this.config == config.(width := windowWidth, height := windowHeight) && configured == [this.config]
      ensures windowWidth == 0 || windowHeight == 0 ==> this.config == config && configured == []
    {
      inner := WindowSurface(surface);
      this.config := config;
      configured := [];
      new;
      var _ := Reconfigure(windowWidth, windowHeight);
    }

    /**
      `new_texture`: an offscreen target whose texture has the configured size
      and format, one layer and one mip level, usable as a copy source and a
      render attachment; the surface is never configured.
     */
    constructor NewTexture(config: SurfaceConfiguration)
      ensures inner.TextureTarget?
      ensures inner.texture.size == Extent3d(config.width, config.height, 1)
      ensures inner.texture.format == config.format && inner.texture.mipLevelCount == 1
      ensures inner.texture.usage == {CopySrcTextureUsage, RenderAttachmentUsage}
      ensures inner.texture.name.None?
      ensures this.config == config && configured == []
    {
      inner := TextureTarget(Texture(None, Extent3d(config.width, config.height, 1), config.format,
        {CopySrcTextureUsage, RenderAttachmentUsage}, 1, []));
      this.config := config;
      configured := [];
    }

    /**
      `destination`: for an offscreen texture always a view of it and no surface
      texture; for a window, the error of acquiring its next texture, or a view
      of that texture together with the texture itself.
     */
    function Destination(acquired: Outcome<SurfaceTexture>): (r: Outcome<TargetDestination>)
      ensures inner.TextureTarget? ==> r == Ok(TargetDestination(TextureView(inner.texture), None))
      ensures inner.WindowSurface? && !acquired.Ok? ==> r == acquired.PropagateFailure()
      ensures inner.WindowSurface? && acquired.Ok? ==>
        r == Ok(TargetDestination(TextureView(acquired.value.texture), Some(acquired.value)))
    {
      match inner
      case WindowSurface(_) =>
        var output :- acquired;
        Ok(TargetDestination(TextureView(output.texture), Some(output)))
      case TextureTarget(texture) =>
        Ok(TargetDestination(TextureView(texture), None))
    }

    /**
      `save`, up to the copy: the readback buffer is sized first, in `u32`
      arithmetic evaluated as `(4 * width) * height` that aborts on overflow;
      a window target then aborts as not implemented; an offscreen target is
      copied with the layout as written, images of `width` rows.
     */
    function Save(): (r: Outcome<CopyPlan>)
      reads this
      ensures r.Ok? <==> inner.TextureTarget? && 4 * config.width < 0x1_0000_0000 &&
                         4 * config.width * config.height < 0x1_0000_0000
      ensures r.Ok? ==> r.value == SaveLayoutAsWritten(config.width, config.height)
      ensures r.Ok? && config.width % 64 == 0 && 0 < config.height <= config.width ==> CopyFits(r.value)
      ensures r.Ok? && config.width % 64 == 0 && 0 < config.width < config.height ==> !CopyFits(r.value)
      ensures !r.Ok? ==> r.Panic?
    {
      if 4 * config.width >= 0x1_0000_0000 || 4 * config.width * config.height >= 0x1_0000_0000 then
        Panic("attempt to multiply with overflow")
      else match inner
        case WindowSurface(_) => Panic("not yet implemented")
        case TextureTarget(_) =>
          if config.width > 0 && config.height > 0 && config.width % 64 == 0 then
            SaveLayoutAsWrittenFitsIff(config.width, config.height);
            Ok(SaveLayoutAsWritten(config.width, config.height))
          else
            Ok(SaveLayoutAsWritten(config.width, config.height))
    }
  }

  /**
    Drawing to a target and presenting hands back exactly the texture that was
    acquired for a window, and nothing for an offscreen texture.
   */
  lemma DestinationIntoSurface(t: Target, acquired: Outcome<SurfaceTexture>)
    requires t.Destination(acquired).Ok?
    ensures t.inner.WindowSurface? ==> acquired.Ok? && IntoSurface(t.Destination(acquired).value) == Some(acquired.value)
    ensures t.inner.TextureTarget? ==> IntoSurface(t.Destination(acquired).value).None?
  {
  }
}
