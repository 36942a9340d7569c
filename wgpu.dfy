/** The wgpu API surface the renderer uses. GPU objects (buffers, bind groups, pipelines,
    textures, views, samplers, layouts) are opaque handles; descriptors are plain values; what
    the GPU is asked to do is a trace of events and recorded commands. */
module Wgpu {
  import opened Base

  type BufferId = nat
  type BindGroupId = nat
  type BindGroupLayoutId = nat
  type PipelineId = nat
  type TextureId = nat
  type ViewId = nat
  type SamplerId = nat
  type FrameId = nat

  datatype TextureFormat = Bgra8UnormSrgb | Rgba8UnormSrgb | Depth32Float | OtherFormat(code: nat)

  datatype PresentMode = Fifo | Immediate | Mailbox

  datatype TextureUsage = RENDER_ATTACHMENT | TEXTURE_BINDING | COPY_DST

  datatype BufferUsage = VERTEX | INDEX | UNIFORM | COPY_DST

  datatype SurfaceConfiguration = SurfaceConfiguration(
    usage: set<TextureUsage>,
    format: TextureFormat,
    width: u32,
    height: u32,
    presentMode: PresentMode)

  datatype Extent3d = Extent3d(width: u32, height: u32, depthOrArrayLayers: u32)

  datatype TextureDimension = D1 | D2 | D3

  datatype TextureDescriptor = TextureDescriptor(
    size: Extent3d,
    mipLevelCount: nat,
    sampleCount: nat,
    dimension: TextureDimension,
    format: TextureFormat,
    usage: set<TextureUsage>)

  /** How the rows of an image upload are laid out in the source bytes. */
  datatype ImageDataLayout = ImageDataLayout(offset: nat, bytesPerRow: Option<u32>, rowsPerImage: Option<u32>)

  /** A texture and the view and sampler made for it (the source's `Texture` struct). */
  datatype Texture = Texture(texture: TextureId, view: ViewId, sampler: SamplerId)

  /** `device.create_buffer_init`: initial contents (elements of `elementSize` bytes) and usages. */
  datatype BufferInit<T> = BufferInit(contents: seq<T>, elementSize: nat, usage: set<BufferUsage>) {
    function ByteSize(): nat { |contents| * elementSize }
  }

  datatype BindingResource = TextureView(view: ViewId) | Sampler(sampler: SamplerId) | WholeBuffer(buffer: BufferId)

  datatype BindGroupEntry = BindGroupEntry(binding: nat, resource: BindingResource)

  // ---- Vertex buffer layouts ----

  datatype VertexFormat = Float32x2 | Float32x3 | Float32x4

  /** Byte size of one attribute of the format. */
  function FormatSize(f: VertexFormat): nat {
    match f
    case Float32x2 => 8
    case Float32x3 => 12
    case Float32x4 => 16
  }

  datatype VertexStepMode = PerVertex | PerInstance

  datatype VertexAttribute = VertexAttribute(offset: nat, shaderLocation: nat, format: VertexFormat) {
    /** First byte after the attribute. */
    function End(): nat { offset + FormatSize(format) }
  }

  datatype VertexBufferLayout = VertexBufferLayout(arrayStride: nat, stepMode: VertexStepMode, attributes: seq<VertexAttribute>)

  /** The attributes follow one another without gaps, the first one at `start`. */
  ghost predicate Packed(attrs: seq<VertexAttribute>, start: nat) {
    && (|attrs| > 0 ==> attrs[0].offset == start)
    && forall i :: 0 < i < |attrs| ==> attrs[i].offset == attrs[i - 1].End()
  }

  /** No two attributes share a byte. */
  ghost predicate Disjoint(attrs: seq<VertexAttribute>) {
    forall i, j :: 0 <= i < j < |attrs| ==> attrs[i].End() <= attrs[j].offset || attrs[j].End() <= attrs[i].offset
  }

  /** Every attribute lies inside one element of the given stride. */
  ghost predicate WithinStride(layout: VertexBufferLayout) {
    forall i :: 0 <= i < |layout.attributes| ==> layout.attributes[i].End() <= layout.arrayStride
  }

  /** End of the last attribute (start when there is none). */
  function AttributesEnd(attrs: seq<VertexAttribute>, start: nat): nat {
    if attrs == [] then start else attrs[|attrs| - 1].End()
  }

  function Locations(attrs: seq<VertexAttribute>): set<nat> {
    set i | 0 <= i < |attrs| :: attrs[i].shaderLocation
  }

  /** Total byte size of a list of formats. */
  function FormatsSize(formats: seq<VertexFormat>): nat {
    if formats == [] then 0 else FormatSize(formats[0]) + FormatsSize(formats[1..])
  }

  /** wgpu's `vertex_attr_array![loc => format, ...]` macro: each attribute starts where the
      previous one ends, the first at offset 0. */
  function VertexAttrArray(entries: seq<(nat, VertexFormat)>): (attrs: seq<VertexAttribute>)
    ensures |attrs| == |entries|
    ensures forall i :: 0 <= i < |entries| ==> attrs[i].shaderLocation == entries[i].0 && attrs[i].format == entries[i].1
    ensures Packed(attrs, 0)
    ensures AttributesEnd(attrs, 0) == FormatsSize(seq(|entries|, i requires 0 <= i < |entries| => entries[i].1))
  {
    AttrsFrom(0, entries)
  }

  function AttrsFrom(offset: nat, entries: seq<(nat, VertexFormat)>): (attrs: seq<VertexAttribute>)
    ensures |attrs| == |entries|
    ensures forall i :: 0 <= i < |entries| ==> attrs[i].shaderLocation == entries[i].0 && attrs[i].format == entries[i].1
    ensures Packed(attrs, offset)
    ensures AttributesEnd(attrs, offset) == offset + FormatsSize(seq(|entries|, i requires 0 <= i < |entries| => entries[i].1))
    decreases |entries|
  {
    if entries == [] then []
    else
      var head := VertexAttribute(offset, entries[0].0, entries[0].1);
      var tail := AttrsFrom(head.End(), entries[1..]);
      assert seq(|entries|, i requires 0 <= i < |entries| => entries[i].1)[1..]
          == seq(|entries[1..]|, i requires 0 <= i < |entries[1..]| => entries[1..][i].1);
      [head] + tail
  }

  /** Packed attributes of positive size never overlap. */
  lemma {:induction false} PackedDisjoint(attrs: seq<VertexAttribute>, start: nat)
    requires Packed(attrs, start)
    ensures Disjoint(attrs)
    ensures forall i :: 0 <= i < |attrs| ==> start <= attrs[i].offset && attrs[i].End() <= AttributesEnd(attrs, start)
  {
    if |attrs| > 0 {
      var init := attrs[..|attrs| - 1];
      assert Packed(init, start);
      PackedDisjoint(init, start);
      var last := attrs[|attrs| - 1];
      assert last.offset == AttributesEnd(init, start);
      forall i | 0 <= i < |attrs| - 1 ensures attrs[i].End() <= last.offset {
        assert attrs[i] == init[i];
      }
    }
  }

  // ---- Render pipelines ----

  datatype PrimitiveTopology = PointList | LineList | LineStrip | TriangleList | TriangleStrip

  datatype FrontFace = Ccw | Cw

  datatype Face = Front | Back

  datatype PolygonMode = Fill | Line | Point

  datatype BlendState = Replace | AlphaBlending

  datatype ColorWrites = All | NoColor

  /** `!0u64`: the multisample mask with every sample enabled. */
  const U64_MAX: nat := 0xFFFF_FFFF_FFFF_FFFF

  datatype RenderPipelineDescriptor = RenderPipelineDescriptor(
    bindGroupLayouts: seq<BindGroupLayoutId>,
    vertexBuffers: seq<VertexBufferLayout>,
    colorFormat: TextureFormat,
    blend: Option<BlendState>,
    writeMask: ColorWrites,
    topology: PrimitiveTopology,
    stripIndexFormat: Option<IndexFormat>,
    frontFace: FrontFace,
    cullMode: Option<Face>,
    polygonMode: PolygonMode,
    unclippedDepth: bool,
    conservative: bool,
    depthStencil: Option<TextureFormat>,
    sampleCount: nat,
    sampleMask: nat,
    alphaToCoverage: bool)

  /** Whether a triangle of the given signed area (counter-clockwise positive) faces front. */
  predicate FacesFront(frontFace: FrontFace, signedArea: real) {
    if frontFace == Ccw then signedArea > 0.0 else signedArea < 0.0
  }

  /** Whether the pipeline's rasterizer discards a triangle of the given signed area. */
  predicate Culled(p: RenderPipelineDescriptor, signedArea: real) {
    match p.cullMode
    case None => false
    case Some(Back) => !FacesFront(p.frontFace, signedArea)
    case Some(Front) => FacesFront(p.frontFace, signedArea)
  }

  // ---- Recorded commands and the GPU trace ----

  datatype IndexFormat = Uint16 | Uint32

  datatype Color = Color(r: real, g: real, b: real, a: real)

  /** The half-open range start..end. */
  datatype Range = Range(start: int, end: int)

  /** A colour attachment of a render pass: what it loads (a clear colour) and whether it stores. */
  datatype ColorAttachment = ColorAttachment(view: ViewId, clear: Color, store: bool)

  datatype RenderCommand =
    | BeginRenderPass(color: ColorAttachment, depthAttachment: Option<ViewId>)
    | SetPipeline(pipeline: PipelineId)
    | SetBindGroup(index: nat, group: BindGroupId)
    | SetVertexBuffer(slot: nat, buffer: BufferId)
    | SetIndexBuffer(buffer: BufferId, format: IndexFormat)
    | DrawIndexed(indices: Range, baseVertex: int, instances: Range)
    | EndRenderPass

  /** One effect on the surface or the queue, in the order the program asks for it.
      D is the type of what a buffer write uploads. */
  datatype GpuEvent<D> =
    | ConfigureSurface(config: SurfaceConfiguration)
    | WriteBuffer(buffer: BufferId, offset: nat, data: D)
    | Submit(commandBuffers: seq<seq<RenderCommand>>)
    | Present(frame: FrameId)

  /** The errors of `Surface::get_current_texture`. */
  datatype SurfaceError = Timeout | Outdated | Lost | OutOfMemory
}
