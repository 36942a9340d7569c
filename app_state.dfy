/** The renderer's state and what it does each frame: resizing the surface, feeding window
    events to the camera controller, the per-tick update of camera, uniform and instances, and the
    recording of one frame. GPU effects are appended, in order, to the `gpu` trace. */
module AppState {
  import opened Base
  import opened Cgmath
  import opened Wgpu
  import opened Winit
  import InstanceSet
  import Controller
  import Uniforms
  import Geometries
  import Textures

  /** What a buffer write uploads: the packed instance matrices or the camera uniform. */
  datatype Upload = InstanceData(raws: seq<InstanceSet.InstanceRaw>) | UniformData(uniform: Uniforms.CameraUniform)

  /** `CameraUniform::update_view_proj(&camera)` as `State::update` calls it, with the camera
      alone; that one-argument form is not part of this model. */
  const UpdateViewProjFromCamera: (Uniforms.CameraUniform, Controller.Camera) -> Uniforms.CameraUniform

  /** The colour every frame is cleared to. */
  const CLEAR_COLOR := Color(0.1, 0.2, 0.3, 1.0)

  /** The commands `render` records into its one render pass. */
  function FrameCommands(view: ViewId, pipeline: PipelineId, diffuseBindGroup: BindGroupId, cameraBindGroup: BindGroupId,
                         geometry: Geometries.Geometry, instanceBuffer: BufferId, instanceCount: nat): seq<RenderCommand>
  {
    [BeginRenderPass(ColorAttachment(view, CLEAR_COLOR, true), None),
     SetPipeline(pipeline),
     SetBindGroup(0, diffuseBindGroup),
     SetBindGroup(1, cameraBindGroup),
     SetVertexBuffer(0, geometry.vertexBuffer),
     SetVertexBuffer(1, instanceBuffer),
     SetIndexBuffer(geometry.indexBuffer, Uint16),
     DrawIndexed(Range(0, geometry.numIndices), 0, Range(0, AsU32(instanceCount))),
     EndRenderPass]
  }

  /** Whether a command reads state the pipeline must already be set for. */
  predicate NeedsPipeline(c: RenderCommand) {
    c.SetBindGroup? || c.SetVertexBuffer? || c.SetIndexBuffer? || c.DrawIndexed?
  }

  /** The pass clears the surface view and stores the result, with no depth attachment; the
      pipeline is set once, before every bind and the draw; group 0 is the texture and group 1 the
      camera; slot 0 is the geometry and slot 1 the instances; indices are 16-bit; and the one draw
      covers all the geometry's indices, base vertex 0, for every instance. */
  lemma FrameOrder(view: ViewId, pipeline: PipelineId, diffuseBindGroup: BindGroupId, cameraBindGroup: BindGroupId,
                   geometry: Geometries.Geometry, instanceBuffer: BufferId, instanceCount: nat)
    ensures var c := FrameCommands(view, pipeline, diffuseBindGroup, cameraBindGroup, geometry, instanceBuffer, instanceCount);
      && c[0] == BeginRenderPass(ColorAttachment(view, Color(0.1, 0.2, 0.3, 1.0), true), None)
      && c[|c| - 1] == EndRenderPass
      && (forall i :: 0 <= i < |c| && c[i].SetPipeline? ==> i == 1 && c[i].pipeline == pipeline)
      && (forall i :: 0 <= i < |c| && NeedsPipeline(c[i]) ==> 1 < i < |c| - 1)
      && (forall i :: 0 <= i < |c| && c[i].SetBindGroup? ==>
            (c[i].index == 0 && c[i].group == diffuseBindGroup) || (c[i].index == 1 && c[i].group == cameraBindGroup))
      && (forall i :: 0 <= i < |c| && c[i].SetVertexBuffer? ==>
            (c[i].slot == 0 && c[i].buffer == geometry.vertexBuffer) || (c[i].slot == 1 && c[i].buffer == instanceBuffer))
      && (forall i :: 0 <= i < |c| && c[i].SetIndexBuffer? ==> c[i].format == Uint16 && c[i].buffer == geometry.indexBuffer)
      && (forall i :: 0 <= i < |c| && c[i].DrawIndexed? ==> i == |c| - 2)
      && c[|c| - 2] == DrawIndexed(Range(0, geometry.numIndices), 0, Range(0, AsU32(instanceCount)))
    ensures instanceCount < U32_MODULUS ==>
      FrameCommands(view, pipeline, diffuseBindGroup, cameraBindGroup, geometry, instanceBuffer, instanceCount)[7].instances
        == Range(0, instanceCount)
  {
  }

  /** The renderer's state (the fields `State`'s methods read or write; the device and queue are
      the trace). */
  class State {
    var size: PhysicalSize
    var surfaceConfiguration: SurfaceConfiguration
    /** The descriptor the current depth texture was created from. */
    var depthTexture: TextureDescriptor
    var camera: Controller.Camera
    var cameraController: Controller.CameraController
    var uniform: Uniforms.CameraUniform
    var cameraBuffer: BufferId
    var cameraBindGroup: BindGroupId
    var diffuseBindGroup: BindGroupId
    var geometry: Geometries.Geometry
    var instanceBuffer: BufferId
    var instances: InstanceSet.Instances
    var renderPipeline: PipelineId
    var gpu: seq<GpuEvent<Upload>>

    /** The surface, its configuration and the depth texture agree on the window size. */
    predicate Consistent()
      reads this
    {
      && surfaceConfiguration.width == size.width
      && surfaceConfiguration.height == size.height
      && depthTexture == Textures.DepthTextureDescriptor(surfaceConfiguration)
    }

    /** The fields as `State::new` assembles them, with an empty trace. */
    constructor Assemble(size: PhysicalSize, surfaceConfiguration: SurfaceConfiguration, camera: Controller.Camera,
                         cameraController: Controller.CameraController, uniform: Uniforms.CameraUniform,
                         cameraBuffer: BufferId, cameraBindGroup: BindGroupId, diffuseBindGroup: BindGroupId,
                         geometry: Geometries.Geometry, instanceBuffer: BufferId, instances: InstanceSet.Instances,
                         renderPipeline: PipelineId)
      requires surfaceConfiguration.width == size.width && surfaceConfiguration.height == size.height
      ensures Consistent() && gpu == []
      ensures this.size == size && this.surfaceConfiguration == surfaceConfiguration && this.camera == camera
      ensures this.cameraController == cameraController && this.uniform == uniform && this.cameraBuffer == cameraBuffer
      ensures this.cameraBindGroup == cameraBindGroup && this.diffuseBindGroup == diffuseBindGroup
      ensures this.geometry == geometry && this.instanceBuffer == instanceBuffer && this.instances == instances
      ensures this.renderPipeline == renderPipeline
    {
      this.size := size;
      this.surfaceConfiguration := surfaceConfiguration;
      this.depthTexture := Textures.DepthTextureDescriptor(surfaceConfiguration);
      this.camera := camera;
      this.cameraController := cameraController;
      this.uniform := uniform;
      this.cameraBuffer := cameraBuffer;
      this.cameraBindGroup := cameraBindGroup;
      this.diffuseBindGroup := diffuseBindGroup;
      this.geometry := geometry;
      this.instanceBuffer := instanceBuffer;
      this.instances := instances;
      this.renderPipeline := renderPipeline;
      this.gpu := [];
    }

    /** `input`: the controller sees the event; its answer is returned and nothing but the
        controller changes. */
    method Input(event: WindowEvent) returns (consumed: bool)
      modifies this`cameraController
      ensures (cameraController, consumed) == Controller.ProcessEvents(old(cameraController), event)
    {
      var (next, answer) := Controller.ProcessEvents(cameraController, event);
      cameraController := next;
      consumed := answer;
    }

    /** `reconfigure_surface`: the current configuration is applied again, unchanged. */
    method ReconfigureSurface()
      modifies this`gpu
      ensures gpu == old(gpu) + [ConfigureSurface(surfaceConfiguration)]
    {
      gpu := gpu + [ConfigureSurface(surfaceConfiguration)];
    }

    /** `resize`: a size with a zero side is ignored; otherwise the size and the configuration's
        width and height take the new size, the surface is reconfigured and the depth texture is
        made again at the new size. */
    method Resize(newSize: PhysicalSize)
      modifies this`size, this`surfaceConfiguration, this`depthTexture, this`gpu
      ensures newSize.width == 0 || newSize.height == 0 ==>
        size == old(size) && surfaceConfiguration == old(surfaceConfiguration)
        && depthTexture == old(depthTexture) && gpu == old(gpu)
      ensures newSize.width > 0 && newSize.height > 0 ==>
        && size == newSize
        && surfaceConfiguration == old(surfaceConfiguration).(width := newSize.width, height := newSize.height)
        && gpu == old(gpu) + [ConfigureSurface(surfaceConfiguration)]
        && depthTexture == Textures.DepthTextureDescriptor(surfaceConfiguration)
        && depthTexture.size == Extent3d(newSize.width, newSize.height, 1)
      ensures old(Consistent()) ==> Consistent()
    {
      if newSize.width > 0 && newSize.height > 0 {
        size := newSize;
        surfaceConfiguration := surfaceConfiguration.(width := newSize.width);
        surfaceConfiguration := surfaceConfiguration.(height := newSize.height);
        gpu := gpu + [ConfigureSurface(surfaceConfiguration)];
        depthTexture := Textures.DepthTextureDescriptor(surfaceConfiguration);
      }
    }

    /** `update`: the controller moves the camera, the uniform is recomputed from the moved
        camera, every instance turns once, and then the whole instance array and the whole uniform
        are written, each at offset 0, in that order. */
    method Update()
      modifies this`cameraController, this`camera, this`uniform, this`gpu, instances
      ensures (cameraController, camera) == Controller.UpdateCamera(old(cameraController), old(camera))
      ensures uniform == UpdateViewProjFromCamera(old(uniform), camera)
      ensures instances.items == InstanceSet.Tick(old(instances.items), InstanceSet.STEP)
      ensures gpu == old(gpu) + [WriteBuffer(instanceBuffer, 0, InstanceData(InstanceSet.RawsOf(instances.items))),
                                 WriteBuffer(cameraBuffer, 0, UniformData(uniform))]
    {
      var (nextController, nextCamera) := Controller.UpdateCamera(cameraController, camera);
      cameraController, camera := nextController, nextCamera;
      uniform := UpdateViewProjFromCamera(uniform, camera);
      instances.Update();
      var instancesRaw := InstanceSet.RawsOf(instances.items);
      gpu := gpu + [WriteBuffer(instanceBuffer, 0, InstanceData(instancesRaw)), WriteBuffer(cameraBuffer, 0, UniformData(uniform))];
    }

    /** `render`: a failed acquisition is returned before anything is recorded; otherwise the
        pass is recorded command by command, its one command buffer submitted, and the frame then
        presented. `acquired` is what `get_current_texture` and `create_view` give. */
    method Render(acquired: Result<(FrameId, ViewId), SurfaceError>) returns (r: Result<(), SurfaceError>)
      modifies this`gpu
      ensures acquired.Err? ==> r == Err(acquired.error) && gpu == old(gpu)
      ensures acquired.Ok? ==> r == Ok(()) && gpu == old(gpu) + [
        Submit([FrameCommands(acquired.value.1, renderPipeline, diffuseBindGroup, cameraBindGroup, geometry, instanceBuffer, instances.Len())]),
        Present(acquired.value.0)]
    {
      if acquired.Err? {
        return Err(acquired.error);
      }
      var (output, view) := acquired.value;
      var pass := [BeginRenderPass(ColorAttachment(view, CLEAR_COLOR, true), None)];
      pass := pass + [SetPipeline(renderPipeline)];
      pass := pass + [SetBindGroup(0, diffuseBindGroup)];
      pass := pass + [SetBindGroup(1, cameraBindGroup)];
      pass := pass + [SetVertexBuffer(0, geometry.vertexBuffer)];
      pass := pass + [SetVertexBuffer(1, instanceBuffer)];
      pass := pass + [SetIndexBuffer(geometry.indexBuffer, Uint16)];
      pass := pass + [DrawIndexed(Range(0, geometry.numIndices), 0, Range(0, AsU32(instances.Len())))];
      pass := pass + [EndRenderPass];
      assert pass == FrameCommands(view, renderPipeline, diffuseBindGroup, cameraBindGroup, geometry, instanceBuffer, instances.Len());
      gpu := gpu + [Submit([pass]), Present(output)];
      r := Ok(());
    }
  }

  /** What `update` writes to the instance buffer is the state after the turn: one matrix per
      instance, and instance i's translation column is still its original position. */
  lemma UpdateUploadsTurnedInstances(before: seq<InstanceSet.Instance>, i: nat)
    requires i < |before|
    ensures |InstanceSet.RawsOf(InstanceSet.Tick(before, InstanceSet.STEP))| == |before|
    ensures InstanceSet.RawsOf(InstanceSet.Tick(before, InstanceSet.STEP))[i].model.c3 == ToHomogeneous(before[i].position)
  {
    InstanceSet.TickKeepsTranslation(before, InstanceSet.STEP, i);
  }
}
