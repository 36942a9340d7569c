/** The two kinds of texture the renderer makes: the depth buffer, sized like the surface, and
    an RGBA image uploaded row by row. */
module Textures {
  import opened Base
  import opened Wgpu

  /** `Texture::DEPTH_FORMAT`. */
  const DEPTH_FORMAT: TextureFormat := Depth32Float

  /** The descriptor `create_depth_texture` passes to the device. */
  function DepthTextureDescriptor(config: SurfaceConfiguration): (d: TextureDescriptor)
    ensures d.size == Extent3d(config.width, config.height, 1)
    ensures d.format == DEPTH_FORMAT && d.dimension == D2
    ensures d.mipLevelCount == 1 && d.sampleCount == 1
    ensures d.usage == {RENDER_ATTACHMENT, TEXTURE_BINDING}
  {
    TextureDescriptor(Extent3d(config.width, config.height, 1), 1, 1, D2, DEPTH_FORMAT,
      {RENDER_ATTACHMENT, TEXTURE_BINDING})
  }

  /** The depth texture covers exactly the surface: two configurations give the same depth
      descriptor if and only if they have the same width and height. */
  lemma DepthFollowsSurface(a: SurfaceConfiguration, b: SurfaceConfiguration)
    ensures DepthTextureDescriptor(a) == DepthTextureDescriptor(b) <==> (a.width == b.width && a.height == b.height)
  {
    if DepthTextureDescriptor(a) == DepthTextureDescriptor(b) {
      assert DepthTextureDescriptor(a).size == DepthTextureDescriptor(b).size;
    }
  }

  /** `NonZeroU32::new`. */
  function NonZero(n: u32): (r: Option<u32>)
    ensures r == None <==> n == 0
    ensures r.Some? ==> r.value == n
  {
    if n == 0 then None else Some(n)
  }

  /** The descriptor `from_image` passes to the device for an image of the given dimensions. */
  function ImageTextureDescriptor(width: u32, height: u32): (d: TextureDescriptor)
    ensures d.size == Extent3d(width, height, 1)
    ensures d.format == Rgba8UnormSrgb && d.dimension == D2
    ensures d.mipLevelCount == 1 && d.sampleCount == 1
    ensures d.usage == {TEXTURE_BINDING, TextureUsage.COPY_DST}
  {
    TextureDescriptor(Extent3d(width, height, 1), 1, 1, D2, Rgba8UnormSrgb, {TEXTURE_BINDING, TextureUsage.COPY_DST})
  }

  /** The layout of the `write_texture` upload in `from_image`: rows of four bytes per pixel, the
      `u32` product wrapping as in a release build. */
  function UploadLayout(width: u32, height: u32): (l: ImageDataLayout)
    ensures l.offset == 0
    ensures 0 < width && 4 * width < U32_MODULUS ==> l.bytesPerRow == Some(4 * width)
    ensures width == 0 ==> l.bytesPerRow == None
    ensures l.rowsPerImage == if height == 0 then None else Some(height)
  {
    ImageDataLayout(0, NonZero(AsU32(4 * width)), NonZero(height))
  }

  /** For a non-empty image whose row fits in a `u32`, the upload's rows times its row pitch is
      the byte count of the RGBA8 pixels, 4 * width * height. */
  lemma UploadCoversImage(width: u32, height: u32)
    requires 0 < width && 0 < height && 4 * width < U32_MODULUS
    ensures UploadLayout(width, height).bytesPerRow.Some?
    ensures UploadLayout(width, height).rowsPerImage.Some?
    ensures UploadLayout(width, height).bytesPerRow.value * UploadLayout(width, height).rowsPerImage.value == 4 * width * height
  {
    var l := UploadLayout(width, height);
    assert l.bytesPerRow == Some(4 * width);
    assert l.rowsPerImage == Some(height);
  }
}
