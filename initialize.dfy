/** The renderer's start-up builders: the 10x10 grid of instances and its buffer, the surface
    configuration, and the fixed-function state of the render pipeline. */
module Initialize {
  import opened Base
  import opened Cgmath
  import opened Wgpu
  import opened Winit
  import InstanceSet
  import Vertices
  import Meshes
  import ReprC

  const NUM_INSTANCES_PER_ROW: u32 := 10

  /** `(NUM_INSTANCES_PER_ROW * 0.5, 0, NUM_INSTANCES_PER_ROW * 0.5)`, subtracted from every grid
      point. */
  const INSTANCE_DISPLACEMENT := Vec3(NUM_INSTANCES_PER_ROW as real * 0.5, 0.0, NUM_INSTANCES_PER_ROW as real * 0.5)

  /** The sine and cosine of 0 degrees, half of the origin instance's 0-degree turn. */
  const SIN_COS_0_DEG := SinCos(0.0, 1.0)

  /** The sine and cosine of 22.5 degrees, half of the 45-degree turn; not modelled. */
  const SIN_COS_22_5_DEG: SinCos

  const UNIT_Z := Vec3(0.0, 0.0, 1.0)

  /** The instance at grid column x of row z. */
  function GridInstance(x: nat, z: nat): InstanceSet.Instance {
    var position := Sub3(Vec3(x as real, 0.0, z as real), INSTANCE_DISPLACEMENT);
    var rotation :=
      if position == ZERO3 then FromAxisAngle(UNIT_Z, SIN_COS_0_DEG)
      else FromAxisAngle(Normalize(position), SIN_COS_22_5_DEG);
    InstanceSet.Instance(position, rotation)
  }

  /** The inner `map`: row z, x running over 0..NUM_INSTANCES_PER_ROW. */
  function Row(z: nat): (row: seq<InstanceSet.Instance>)
    ensures |row| == NUM_INSTANCES_PER_ROW
  {
    seq(NUM_INSTANCES_PER_ROW, x requires 0 <= x < NUM_INSTANCES_PER_ROW => GridInstance(x, z))
  }

  /** The `flat_map` over the first n rows, row after row. */
  function Rows(n: nat): seq<InstanceSet.Instance> {
    if n == 0 then [] else Rows(n - 1) + Row(n - 1)
  }

  /** The instances `get_instances` builds. */
  function Grid(): seq<InstanceSet.Instance> {
    Rows(NUM_INSTANCES_PER_ROW)
  }

  /** Instance k of the first n rows is column k % 10 of row k / 10. */
  lemma {:induction false} RowsAt(n: nat)
    ensures |Rows(n)| == NUM_INSTANCES_PER_ROW * n
    ensures forall k :: 0 <= k < |Rows(n)| ==> Rows(n)[k] == GridInstance(k % 10, k / 10)
  {
    if n > 0 {
      RowsAt(n - 1);
      var prev := Rows(n - 1);
      forall k | 0 <= k < |Rows(n)| ensures Rows(n)[k] == GridInstance(k % 10, k / 10) {
        if k >= |prev| {
          assert Rows(n)[k] == Row(n - 1)[k - |prev|];
          assert k / 10 == n - 1 && k % 10 == k - |prev|;
        }
      }
    }
  }

  /** Instance k of the grid is column k % 10 of row k / 10. */
  lemma GridAt(k: nat)
    requires k < 100
    ensures |Grid()| == 100 && Grid()[k] == GridInstance(k % 10, k / 10)
  {
    RowsAt(NUM_INSTANCES_PER_ROW);
  }

  /** There are 100 instances, instance k = 10 z + x sits at (x - 5, 0, z - 5), so the grid runs
      from -5 to 4 on both axes. */
  lemma GridLayout()
    ensures |Grid()| == 100
    ensures forall k :: 0 <= k < 100 ==>
      Grid()[k].position == Vec3((k % 10) as real - 5.0, 0.0, (k / 10) as real - 5.0)
    ensures forall k :: 0 <= k < 100 ==>
      -5.0 <= Grid()[k].position.x <= 4.0 && -5.0 <= Grid()[k].position.z <= 4.0
    ensures Grid()[0].position == Vec3(-5.0, 0.0, -5.0) && Grid()[99].position == Vec3(4.0, 0.0, 4.0)
  {
    RowsAt(NUM_INSTANCES_PER_ROW);
  }

  /** Only grid point (5, 5) lands on the origin, and it gets the identity rotation. */
  lemma OriginPoint(x: nat, z: nat)
    requires x < 10 && z < 10
    ensures GridInstance(x, z).position == ZERO3 <==> x == 5 && z == 5
    ensures x == 5 && z == 5 ==> GridInstance(x, z).rotation == QUAT_IDENTITY
    ensures !(x == 5 && z == 5) ==>
      GridInstance(x, z).rotation == FromAxisAngle(Normalize(GridInstance(x, z).position), SIN_COS_22_5_DEG)
  {
  }

  /** Exactly one instance, number 55, sits at the origin; it gets the 0-degree turn about the z
      axis, which is the identity rotation. Every other instance gets the 45-degree turn about its
      own normalized direction. */
  lemma OriginInstance(k: nat)
    requires k < 100
    ensures Grid()[k].position == ZERO3 <==> k == 55
    ensures k == 55 ==> Grid()[k].rotation == QUAT_IDENTITY
    ensures k != 55 ==> Grid()[k].rotation == FromAxisAngle(Normalize(Grid()[k].position), SIN_COS_22_5_DEG)
  {
    GridAt(k);
    OriginPoint(k % 10, k / 10);
    assert k % 10 == 5 && k / 10 == 5 <==> k == 55;
  }

  /** `get_instances`: the grid wrapped as an `Instances`, and the instance buffer initialized
      with its packed matrices, usable as a vertex buffer and as a copy destination. The buffer
      handle the device returns is a parameter. */
  method GetInstances(buffer: BufferId) returns (instances: InstanceSet.Instances, init: BufferInit<InstanceSet.InstanceRaw>, instanceBuffer: BufferId)
    ensures fresh(instances) && instances.items == Grid()
    ensures init == BufferInit(InstanceSet.RawsOf(Grid()), INSTANCE_RAW_SIZE, {VERTEX, BufferUsage.COPY_DST})
    ensures instanceBuffer == buffer
  {
    instances := new InstanceSet.Instances.From(Grid());
    init := BufferInit(instances.GetRaw(), INSTANCE_RAW_SIZE, {VERTEX, BufferUsage.COPY_DST});
    instanceBuffer := buffer;
  }

  /** `size_of::<InstanceRaw>()`; `InstanceRawSize` ties it to the repr(C) layout. */
  const INSTANCE_RAW_SIZE := 64

  /** `surface_configuration`: the configuration it builds and then applies to the surface.
      `get_supported_formats(adapter)[0]` panics when the list is empty. */
  method SurfaceConfigurationFor(supportedFormats: seq<TextureFormat>, size: PhysicalSize)
    returns (config: SurfaceConfiguration, events: seq<GpuEvent<()>>)
    requires |supportedFormats| > 0
    ensures config == SurfaceConfigurationOf(supportedFormats, size)
    ensures events == [ConfigureSurface(config)]
  {
    config := SurfaceConfiguration({RENDER_ATTACHMENT}, supportedFormats[0], size.width, size.height, Fifo);
    events := [ConfigureSurface(config)];
  }

  /** The configuration `surface_configuration` builds. */
  function SurfaceConfigurationOf(supportedFormats: seq<TextureFormat>, size: PhysicalSize): SurfaceConfiguration
    requires |supportedFormats| > 0
  {
    SurfaceConfiguration({RENDER_ATTACHMENT}, supportedFormats[0], size.width, size.height, Fifo)
  }

  /** The configuration renders to the surface in its first supported format, at exactly the
      window's size, presenting in first-in first-out order; two configurations built from the
      same formats are equal if and only if the sizes are. */
  lemma SurfaceConfigurationFollowsSize(formats: seq<TextureFormat>, a: PhysicalSize, b: PhysicalSize)
    requires |formats| > 0
    ensures var c := SurfaceConfigurationOf(formats, a);
      && c.format == formats[0] && c.presentMode == Fifo && c.usage == {RENDER_ATTACHMENT}
      && c.width == a.width && c.height == a.height
    ensures SurfaceConfigurationOf(formats, a) == SurfaceConfigurationOf(formats, b) <==> a == b
  {
    if SurfaceConfigurationOf(formats, a) == SurfaceConfigurationOf(formats, b) {
      assert a.width == b.width && a.height == b.height;
    }
  }

  /** `render_pipeline`'s descriptor: bind-group layouts [texture, camera], vertex buffers
      [Vertex, InstanceRaw], the surface format with REPLACE blending, counter-clockwise
      triangles with back faces culled, no depth test, one sample. */
  function RenderPipelineOf(config: SurfaceConfiguration, textureLayout: BindGroupLayoutId, cameraLayout: BindGroupLayoutId): RenderPipelineDescriptor {
    RenderPipelineDescriptor(
      [textureLayout, cameraLayout],
      [Vertices.Desc(), InstanceSet.Desc()],
      config.format, Some(Replace), All,
      TriangleList, None, Ccw, Some(Back), Fill, false, false,
      None,
      1, U64_MAX, false)
  }

  /** The pipeline reads bind group 0 as the texture and 1 as the camera; it declares the
      `Vertex` buffer at slot 0, stepping per vertex, and the `InstanceRaw` buffer at slot 1,
      stepping per instance, at shader locations that do not clash; it draws filled triangle lists
      into the surface's format with REPLACE blending, counter-clockwise front faces and back faces
      culled, one sample, every sample enabled, without depth; and no triangle of the pentagon mesh
      is culled. */
  lemma PipelineState(config: SurfaceConfiguration, textureLayout: BindGroupLayoutId, cameraLayout: BindGroupLayoutId)
    ensures var p := RenderPipelineOf(config, textureLayout, cameraLayout);
      && p.bindGroupLayouts == [textureLayout, cameraLayout]
      && p.vertexBuffers == [Vertices.Desc(), InstanceSet.Desc()]
      && p.vertexBuffers[0].stepMode == PerVertex && p.vertexBuffers[1].stepMode == PerInstance
      && Locations(p.vertexBuffers[0].attributes) !! Locations(p.vertexBuffers[1].attributes)
      && p.colorFormat == config.format && p.blend == Some(Replace) && p.writeMask == All
      && p.topology == TriangleList && p.stripIndexFormat == None
      && p.frontFace == Ccw && p.cullMode == Some(Back) && p.polygonMode == Fill
      && p.depthStencil == None && p.sampleCount == 1 && p.sampleMask == U64_MAX && !p.alphaToCoverage
      && forall t :: 0 <= t < Meshes.TriangleCount(Meshes.INDICES) ==> !Culled(p, Meshes.TriangleArea(t))
  {
    InstanceSet.LocationsDisjoint();
    Meshes.CounterClockwise(RenderPipelineOf(config, textureLayout, cameraLayout));
  }

  /** `size_of::<InstanceRaw>()`, the size the instance buffer is laid out with, is the stride
      `InstanceSet.Desc` declares: 64 bytes. */
  lemma InstanceRawSize()
    ensures ReprC.SizeOf(InstanceSet.INSTANCE_RAW_FIELDS) == INSTANCE_RAW_SIZE == InstanceSet.Desc().arrayStride
  {
    ReprC.WordStructSize(InstanceSet.INSTANCE_RAW_FIELDS);
    ReprC.WordFieldsEnd(InstanceSet.INSTANCE_RAW_FIELDS, 0);
  }
}
