/** The earlier single-file renderer state: one pentagon, one instance, a look-at camera and no
    depth texture. GPU effects are appended, in order, to the `gpu` trace. */
module LegacyState {
  import opened Base
  import opened Cgmath
  import opened Wgpu
  import opened Winit
  import Cameras
  import Uniforms
  import Geometries
  import Vertices
  import Meshes

  /** The camera controller this state uses; its state and operations are not part of this
      model. */
  type LegacyController(==, 0)
  const LegacyProcessEvents: (LegacyController, WindowEvent) -> (LegacyController, bool)
  const LegacyUpdateCamera: (LegacyController, Cameras.Camera) -> (LegacyController, Cameras.Camera)
  /** `CameraUniform::update_view_proj(&camera)` on the look-at camera; not part of this model. */
  const LegacyUpdateViewProj: (Uniforms.CameraUniform, Cameras.Camera) -> Uniforms.CameraUniform

  const UNIT_Y := Vec3(0.0, 1.0, 0.0)

  /** The camera `new` places: one unit up and two back, looking at the origin with y up, a
      45-degree field of view, the surface's aspect ratio and depth from 0.1 to 100. */
  function InitialCamera(config: SurfaceConfiguration): Cameras.Camera
    requires config.height > 0
  {
    Cameras.Camera(config.width as real / config.height as real, Vec3(0.0, 1.0, 2.0), 45.0,
                   Vec3(0.0, 0.0, 0.0), UNIT_Y, 0.1, 100.0)
  }

  /** The initial camera's depth range is non-empty and in front of the eye, its aspect ratio
      turns the surface's height back into its width, and it looks down the negative z axis from
      above, towards the origin. */
  lemma InitialCameraFrames(config: SurfaceConfiguration)
    requires config.height > 0
    ensures var c := InitialCamera(config);
      && 0.0 < c.zNear < c.zFar
      && c.aspect * config.height as real == config.width as real
      && (c.aspect > 0.0 <==> config.width > 0)
    ensures var c := InitialCamera(config);
      Sub3(c.target, c.eye) == Vec3(0.0, -1.0, -2.0) && c.up == UNIT_Y
  {
  }

  /** The fixed-function state of the legacy pipeline: one vertex buffer of `Vertex`; otherwise
      as the current renderer's. */
  function RenderPipelineOf(config: SurfaceConfiguration, textureLayout: BindGroupLayoutId, cameraLayout: BindGroupLayoutId): RenderPipelineDescriptor {
    RenderPipelineDescriptor(
      [textureLayout, cameraLayout],
      [Vertices.Desc()],
      config.format, Some(Replace), All,
      TriangleList, None, Ccw, Some(Back), Fill, false, false,
      None,
      1, U64_MAX, false)
  }

  /** The pipeline reads group 0 as the texture and 1 as the camera and declares exactly one
      per-vertex buffer, `Vertex`'s, at locations 0 and 1; it draws triangle lists into the
      surface's format with REPLACE blending, counter-clockwise front faces and back faces culled,
      filled, without depth, one sample, every sample enabled; and culls none of the pentagon's
      triangles. */
  lemma PipelineState(config: SurfaceConfiguration, textureLayout: BindGroupLayoutId, cameraLayout: BindGroupLayoutId)
    ensures var p := RenderPipelineOf(config, textureLayout, cameraLayout);
      && p.bindGroupLayouts == [textureLayout, cameraLayout]
      && p.vertexBuffers == [Vertices.Desc()] && p.vertexBuffers[0].stepMode == PerVertex
      && Locations(p.vertexBuffers[0].attributes) == {0, 1}
      && p.colorFormat == config.format && p.blend == Some(Replace) && p.writeMask == All
      && p.topology == TriangleList && p.stripIndexFormat == None
      && p.frontFace == Ccw && p.cullMode == Some(Back) && p.polygonMode == Fill
      && p.depthStencil == None && p.sampleCount == 1 && p.sampleMask == U64_MAX && !p.alphaToCoverage
      && forall t :: 0 <= t < Meshes.TriangleCount(Meshes.INDICES) ==> !Culled(p, Meshes.TriangleArea(t))
  {
    var p := RenderPipelineOf(config, textureLayout, cameraLayout);
    Meshes.CounterClockwise(p);
    assert p.vertexBuffers[0].attributes == [VertexAttribute(0, 0, Float32x3), VertexAttribute(12, 1, Float32x2)];
    assert Locations(p.vertexBuffers[0].attributes) == {0, 1} by {
      LocationsOfPair(p.vertexBuffers[0].attributes);
    }
  }

  lemma LocationsOfPair(attributes: seq<VertexAttribute>)
    requires attributes == [VertexAttribute(0, 0, Float32x3), VertexAttribute(12, 1, Float32x2)]
    ensures Locations(attributes) == {0, 1}
  {
    forall l | l in Locations(attributes) ensures l in {0, 1} {
      var i :| 0 <= i < |attributes| && attributes[i].shaderLocation == l;
    }
    assert attributes[0].shaderLocation == 0 && attributes[1].shaderLocation == 1;
  }

  /** `diffuse_texture`'s bind group: the texture's view at binding 0 and its sampler at
      binding 1. Loading the image panics on failure, so the texture is given loaded. */
  function DiffuseEntries(texture: Texture): (entries: seq<BindGroupEntry>)
    ensures |entries| == 2
    ensures forall i :: 0 <= i < |entries| ==> entries[i].binding == i
    ensures entries[0].resource == TextureView(texture.view) && entries[1].resource == Sampler(texture.sampler)
  {
    [BindGroupEntry(0, TextureView(texture.view)), BindGroupEntry(1, Sampler(texture.sampler))]
  }

  /** The commands the legacy `render` records into its one render pass. */
  function FrameCommands(view: ViewId, pipeline: PipelineId, diffuseBindGroup: BindGroupId, cameraBindGroup: BindGroupId,
                         geometry: Geometries.Geometry): seq<RenderCommand>
  {
    [BeginRenderPass(ColorAttachment(view, Color(0.1, 0.2, 0.3, 1.0), true), None),
     SetPipeline(pipeline),
     SetBindGroup(0, diffuseBindGroup),
     SetBindGroup(1, cameraBindGroup),
     SetVertexBuffer(0, geometry.vertexBuffer),
     SetIndexBuffer(geometry.indexBuffer, Uint16),
     DrawIndexed(Range(0, geometry.numIndices), 0, Range(0, 1)),
     EndRenderPass]
  }

  /** Whether a command reads state the pipeline must already be set for. */
  predicate NeedsPipeline(c: RenderCommand) {
    c.SetBindGroup? || c.SetVertexBuffer? || c.SetIndexBuffer? || c.DrawIndexed?
  }

  /** The pass clears the surface view and stores the result, with no depth attachment; the
      pipeline is set once, before every bind and the draw; group 0 is the texture and group 1 the
      camera; only vertex slot 0 is bound, to the geometry; indices are 16-bit; and the one draw
      covers all the geometry's indices, base vertex 0, for exactly one instance. */
  lemma FrameOrder(view: ViewId, pipeline: PipelineId, diffuseBindGroup: BindGroupId, cameraBindGroup: BindGroupId,
                   geometry: Geometries.Geometry)
    ensures var c := FrameCommands(view, pipeline, diffuseBindGroup, cameraBindGroup, geometry);
      && c[0] == BeginRenderPass(ColorAttachment(view, Color(0.1, 0.2, 0.3, 1.0), true), None)
      && c[|c| - 1] == EndRenderPass
      && (forall i :: 0 <= i < |c| && c[i].SetPipeline? ==> i == 1 && c[i].pipeline == pipeline)
      && (forall i :: 0 <= i < |c| && NeedsPipeline(c[i]) ==> 1 < i < |c| - 1)
      && (forall i :: 0 <= i < |c| && c[i].SetBindGroup? ==>
            (c[i].index == 0 && c[i].group == diffuseBindGroup) || (c[i].index == 1 && c[i].group == cameraBindGroup))
      && (forall i :: 0 <= i < |c| && c[i].SetVertexBuffer? ==> c[i].slot == 0 && c[i].buffer == geometry.vertexBuffer)
      && (forall i :: 0 <= i < |c| && c[i].SetIndexBuffer? ==> c[i].format == Uint16 && c[i].buffer == geometry.indexBuffer)
      && (forall i :: 0 <= i < |c| && c[i].DrawIndexed? ==> i == |c| - 2)
      && c[|c| - 2] == DrawIndexed(Range(0, geometry.numIndices), 0, Range(0, 1))
  {
  }

  /** The legacy renderer's state (the device and queue are the trace). */
  class State {
    var size: PhysicalSize
    var config: SurfaceConfiguration
    var camera: Cameras.Camera
    var cameraController: LegacyController
    var uniform: Uniforms.CameraUniform
    var cameraBuffer: BufferId
    var cameraBindGroup: BindGroupId
    var diffuseBindGroup: BindGroupId
    var geometry: Geometries.Geometry
    var renderPipeline: PipelineId
    var gpu: seq<GpuEvent<Uniforms.CameraUniform>>

    /** The surface configuration follows the window size. */
    predicate Consistent()
      reads this
    {
      config.width == size.width && config.height == size.height
    }

    /** The fields as `new` assembles them: the camera is the initial one. */
    constructor Assemble(size: PhysicalSize, config: SurfaceConfiguration, cameraController: LegacyController,
                         uniform: Uniforms.CameraUniform, cameraBuffer: BufferId, cameraBindGroup: BindGroupId,
                         diffuseBindGroup: BindGroupId, geometry: Geometries.Geometry, renderPipeline: PipelineId)
      requires config.width == size.width && config.height == size.height && config.height > 0
      ensures Consistent() && gpu == [] && camera == InitialCamera(config)
      ensures this.size == size && this.config == config && this.cameraController == cameraController
      ensures this.uniform == uniform && this.cameraBuffer == cameraBuffer && this.cameraBindGroup == cameraBindGroup
      ensures this.diffuseBindGroup == diffuseBindGroup && this.geometry == geometry && this.renderPipeline == renderPipeline
    {
      this.size := size;
      this.config := config;
      this.camera := InitialCamera(config);
      this.cameraController := cameraController;
      this.uniform := uniform;
      this.cameraBuffer := cameraBuffer;
      this.cameraBindGroup := cameraBindGroup;
      this.diffuseBindGroup := diffuseBindGroup;
      this.geometry := geometry;
      this.renderPipeline := renderPipeline;
      this.gpu := [];
    }

    /** `input`: the controller sees the event and its answer is returned. */
    method Input(event: WindowEvent) returns (consumed: bool)
      modifies this`cameraController
      ensures (cameraController, consumed) == LegacyProcessEvents(old(cameraController), event)
    {
      var (next, answer) := LegacyProcessEvents(cameraController, event);
      cameraController := next;
      consumed := answer;
    }

    /** `resize`: a size with a zero side is ignored; otherwise size and configuration take the
        new size and the surface is reconfigured. There is no depth texture to remake. */
    method Resize(newSize: PhysicalSize)
      modifies this`size, this`config, this`gpu
      ensures newSize.width == 0 || newSize.height == 0 ==>
        size == old(size) && config == old(config) && gpu == old(gpu)
      ensures newSize.width > 0 && newSize.height > 0 ==>
        && size == newSize
        && config == old(config).(width := newSize.width, height := newSize.height)
        && gpu == old(gpu) + [ConfigureSurface(config)]
      ensures old(Consistent()) ==> Consistent()
    {
      if newSize.width > 0 && newSize.height > 0 {
        size := newSize;
        config := config.(width := newSize.width);
        config := config.(height := newSize.height);
        gpu := gpu + [ConfigureSurface(config)];
      }
    }

    /** `update`: the controller moves the camera, the uniform is recomputed from it, and the
        whole uniform is written at offset 0. */
    method Update()
      modifies this`cameraController, this`camera, this`uniform, this`gpu
      ensures (cameraController, camera) == LegacyUpdateCamera(old(cameraController), old(camera))
      ensures uniform == LegacyUpdateViewProj(old(uniform), camera)
      ensures gpu == old(gpu) + [WriteBuffer(cameraBuffer, 0, uniform)]
    {
      var (nextController, nextCamera) := LegacyUpdateCamera(cameraController, camera);
      cameraController, camera := nextController, nextCamera;
      uniform := LegacyUpdateViewProj(uniform, camera);
      gpu := gpu + [WriteBuffer(cameraBuffer, 0, uniform)];
    }

    /** `render`: a failed acquisition is returned with nothing recorded; otherwise the pass is
        recorded, submitted as one command buffer, and the frame presented. */
    method Render(acquired: Result<(FrameId, ViewId), SurfaceError>) returns (r: Result<(), SurfaceError>)
      modifies this`gpu
      ensures acquired.Err? ==> r == Err(acquired.error) && gpu == old(gpu)
      ensures acquired.Ok? ==> r == Ok(()) && gpu == old(gpu) + [
        Submit([FrameCommands(acquired.value.1, renderPipeline, diffuseBindGroup, cameraBindGroup, geometry)]),
        Present(acquired.value.0)]
    {
      if acquired.Err? {
        return Err(acquired.error);
      }
      var (output, view) := acquired.value;
      var pass := [BeginRenderPass(ColorAttachment(view, Color(0.1, 0.2, 0.3, 1.0), true), None)];
      pass := pass + [SetPipeline(renderPipeline)];
      pass := pass + [SetBindGroup(0, diffuseBindGroup)];
      pass := pass + [SetBindGroup(1, cameraBindGroup)];
      pass := pass + [SetVertexBuffer(0, geometry.vertexBuffer)];
      pass := pass + [SetIndexBuffer(geometry.indexBuffer, Uint16)];
      pass := pass + [DrawIndexed(Range(0, geometry.numIndices), 0, Range(0, 1))];
      pass := pass + [EndRenderPass];
      assert pass == FrameCommands(view, renderPipeline, diffuseBindGroup, cameraBindGroup, geometry);
      gpu := gpu + [Submit([pass]), Present(output)];
      r := Ok(());
    }
  }
}
