# learn-wgpu-rs renderer, modelled in Dafny

This project models the CPU-side bookkeeping of a small wgpu renderer written in Rust. The
renderer draws a textured pentagon 100 times, as a 10 x 10 grid of instances. It also loads OBJ
models into GPU meshes with a per-vertex tangent frame. The model covers:

- the instance set (`Instances`, `InstanceRaw`), which every tick turns each instance by six
  degrees about the y axis and packs into one model matrix per instance;
- the renderer state: `input`, `resize`, `update`, `reconfigure_surface` and `render`, for the
  instanced state in `src/state/` and for the older single-instance state in `src/state.rs`;
- the event loop's dispatch in `src/lib.rs`;
- the camera algebra: the OpenGL-to-wgpu depth remap, the look-at camera, the perspective
  projection and the camera uniform;
- the byte layouts of the repr(C) vertex and uniform structs and their vertex-buffer layouts;
- the pentagon's constant mesh data and the `Geometry` built from it;
- the start-up builders: the instance grid, the surface configuration and the pipeline state;
- `load_model`, `model_to_material` and `model_to_mesh`, including the tangent and bitangent
  solve and averaging.

The GPU is not simulated. Each state keeps a `gpu` trace, and every effect is appended to it in
order: a surface configuration, a buffer write, a command-buffer submission or a present. Handles
the device returns (buffers, bind groups, views) are parameters. The event loop keeps a trace of
the calls it makes. The answers it gets back (was the event consumed, did the frame render,
what time is it) are parameters too.

`f32` arithmetic is modelled as exact `real` arithmetic. `as u32` is reduction modulo 2^32
(`Base.AsU32`). Sine, cosine, square root, `normalize`, `perspective`, `look_at_rh` and the
yaw/pitch camera's view matrix are uninterpreted. The model only fixes where they are used and
how their results are combined.

Modules, one per source file or concern:

| module | file | models |
|---|---|---|
| `Base`, `Cgmath`, `Wgpu`, `Winit`, `ReprC` | base.dfy, cgmath.dfy, wgpu.dfy, winit.dfy, reprc.dfy | shared values: Option/Result, `u32`, vectors, quaternions, matrices, wgpu descriptors, window events, repr(C) layout |
| `InstanceSet` | instance.dfy | `src/models/instance.rs` |
| `Vertices`, `Models`, `Meshes`, `Geometries` | vertex.dfy, model.dfy, meshes.dfy, geometry.dfy | vertex structs, mesh constants, `Geometry::new` |
| `Cameras`, `Projections`, `Uniforms`, `Lights`, `Controller` | camera.dfy, projection.dfy, uniform.dfy, light.dfy, controller.dfy | the camera modules and the light uniform |
| `Textures` | texture.dfy | `src/models/texture/texture_static.rs` |
| `Initialize` | initialize.dfy | `src/state/initialize.rs` |
| `AppState` | app_state.dfy | `src/state/mod.rs`, `state_impl.rs`, `render.rs` |
| `LegacyState` | legacy_state.dfy | `src/state.rs` |
| `EventLoop` | event_loop.dfy | the event closure of `run` in `src/lib.rs` |
| `Resources` | resources.dfy | `src/resources.rs` |

`configure_surface` in `src/state.rs` (lines 159-176) builds the same configuration as
`surface_configuration` in `src/state/initialize.rs`, so `Initialize.SurfaceConfigurationFor`
models both.

## Model

| member | source | states |
|---|---|---|
| InstanceSet.RawOf | src/models/instance.rs:44-50 | the packed matrix, translation times rotation; its columns are stated by InstanceSet.RawOfColumns |
| InstanceSet.RawsOf | src/models/instance.rs:20-22 | the packed matrices of a sequence of instances, one each, in order |
| InstanceSet.Tick | src/models/instance.rs:28-35 | the set after one tick, the reference InstanceSet.Instances.Update is proved against |
| InstanceSet.Instances.Len | src/models/instance.rs:24-26 | the number of instances, which InstanceSet.Instances.GetRaw proves is the number of packed matrices |
| InstanceSet.RawOfColumns | src/models/instance.rs:44-50 | the packed matrix keeps the rotation's matrix and puts the position, with w = 1, in the translation column |
| InstanceSet.StepIsUnitYRotation | src/models/instance.rs:28-35 | the per-tick step of 6 degrees is a unit quaternion about the y axis only |
| InstanceSet.Instances.From | src/models/instance.rs:13-17 | wrapping a vector keeps its instances and its length |
| InstanceSet.Instances.GetRaw | src/models/instance.rs:20-22 | one packed matrix per instance, in order, each the instance's translation times rotation |
| InstanceSet.Instances.Update | src/models/instance.rs:28-35 | the in-place loop leaves the set equal to one tick of the old set: every rotation multiplied on the right by the step, positions untouched |
| InstanceSet.TicksAt | src/models/instance.rs:28-35 | after k ticks the length and every position are unchanged and each rotation is its first one turned k times |
| InstanceSet.TurningKeepsNorm | src/models/instance.rs:28-35 | turning by a unit y rotation never changes a rotation's norm, however many ticks, so instances are never scaled |
| InstanceSet.RawTranslation | src/models/instance.rs:20-22 | the translation column of packed matrix i is instance i's position |
| InstanceSet.TickKeepsTranslation | src/models/instance.rs:28-35 | a tick never moves an instance's translation column |
| InstanceSet.Desc | src/models/instance.rs:53-88 | 64-byte per-instance stride; four Float32x4 columns at locations 5..8, offsets 0/16/32/48, packed without overlap and within the stride |
| InstanceSet.LocationsDisjoint | src/models/instance.rs:53-88 | the instance locations {5..8} clash with neither the `Vertex` nor the `ModelVertex` locations |
| Vertices.Desc | src/models/vertex.rs:13-35 | 20-byte per-vertex stride; Float32x3 at 0 and Float32x2 at 12, packed, ending exactly at the stride |
| Vertices.DescMatchesFields | src/models/vertex.rs:5-35 | each attribute reads exactly the bytes of the struct field it stands for |
| Vertices.StructSize | src/models/vertex.rs:5-10 | `size_of::<Vertex>()` is 20: five floats, no padding |
| Models.Desc | src/models/model.rs:34-48 | the layout as written: stride 32, the normal attribute Float32x2 at offset 20, attributes ending at byte 28 |
| Models.NormalTailUnread | src/models/model.rs:26-48 | the normal field spans bytes 20..32 but no attribute reads bytes 28..32, so the normal's z never reaches the shader |
| Models.FieldOffsets | src/models/model.rs:26-32 | the repr(C) offsets of position, tex_coords and normal are 0, 12 and 20 |
| Models.StructSize | src/models/model.rs:26-32 | `size_of::<ModelVertex>()` is 32 |
| Models.IntendedDesc | src/models/model.rs:34-48 | the corrected layout reads the normal as Float32x3 at offset 20, packed |
| Models.IntendedDescMatchesFields | src/models/model.rs:26-48 | with the corrected layout attribute i reads exactly field i at location i and the attributes end at the stride |
| Meshes.Counts | src/meshes.rs:3-15 | five vertices, nine indices, three whole triangles |
| Meshes.IndicesWellFormed | src/meshes.rs:3-15 | every index names a vertex, no triangle repeats a corner, every vertex is used |
| Meshes.Flat | src/meshes.rs:3-9 | every vertex has z = 0 |
| Meshes.CounterClockwise | src/meshes.rs:3-15 | every triangle winds counter-clockwise, so a Ccw pipeline that culls back faces draws all of them |
| Meshes.TexCoordsFollowPositions | src/meshes.rs:3-9 | texture coordinates are (x + 0.5, 0.5 - y) to within 1e-7 |
| Geometries.New | src/models/geometry.rs:14-36 | the vertex and index buffers hold the given data (20 and 2 bytes per element), usable only as vertex and index buffers; the index count is the length reduced mod 2^32, exact below 2^32 |
| Cameras.RemapMatrix | src/models/camera.rs:4-9 | multiplying by `OPENGL_TO_WGPU_MATRIX` maps z to (z + w) / 2 and keeps x, y, w |
| Cameras.RemapProduct | src/models/camera.rs:4-9 | on a matrix the remap acts column by column |
| Cameras.RemapColumnsApply | src/models/camera.rs:4-9 | applying a column-remapped matrix is remapping the applied result |
| Cameras.RemapAssociates | src/models/camera.rs:22-27 | `OPENGL_TO_WGPU_MATRIX * proj * view` is the remap of proj * view: the remap comes last |
| Cameras.DepthRange | src/models/camera.rs:4-9 | for points the remap sends depth -1 to 0 and 1 to 1, maps [-1, 1] into [0, 1] and keeps depth order |
| Cameras.Camera.BuildViewProjectionMatrix | src/models/camera.rs:22-27 | the matrix applies the look-at view first, then the perspective, then the depth remap |
| Projections.Aspect | src/models/camera/projection.rs:13-28 | the aspect ratio is non-negative and times the height gives the width |
| Projections.AspectScale | src/models/camera/projection.rs:13-28 | scaling both sides by k leaves the aspect ratio unchanged |
| Projections.CameraProjection.constructor | src/models/camera/projection.rs:13-23 | aspect from the size, the other parameters as given |
| Projections.CameraProjection.Resize | src/models/camera/projection.rs:26-28 | only the aspect ratio changes, to the new size's |
| Projections.CameraProjection.CalcMatrix | src/models/camera/projection.rs:30-32 | the perspective with its depth remapped to [0, 1] |
| Uniforms.New | src/models/camera/uniform.rs:17-22 | zero position, identity matrix |
| Uniforms.NewIsNeutral | src/models/camera/uniform.rs:17-22 | the initial matrix leaves every vector unchanged |
| Uniforms.UpdateViewProj | src/models/camera/uniform.rs:24-27 | the eye in homogeneous form (w = 1) and view, then projection, then depth remap |
| Uniforms.UpdateOverwrites | src/models/camera/uniform.rs:24-27 | the result does not depend on the old contents, so a repeated update is idempotent |
| Uniforms.Layout | src/models/camera/uniform.rs:6-14 | the matrix starts at byte 16 and the block is 80 bytes |
| Lights.New | src/models/light.rs:21-28 | position and colour as given, both paddings zero |
| Lights.NewBuildsZeroPadded | src/models/light.rs:21-28 | `new` builds exactly the uniforms whose paddings are zero |
| Lights.Layout | src/models/light.rs:9-18 | position at 0, padding at 12, colour at 16, padding at 28, 32 bytes, colour and size on the 16-byte grid |
| Lights.PaddingNeeded | src/models/light.rs:9-18 | without the first padding field the colour would start at byte 12 |
| Textures.DepthTextureDescriptor | src/models/texture/texture_static.rs:13-32 | a single 2D Depth32Float texture of the surface's width and height, usable as render target and binding |
| Textures.DepthFollowsSurface | src/models/texture/texture_static.rs:15-32 | two configurations give the same depth texture if and only if their sizes agree |
| Textures.NonZero | src/models/texture/texture_static.rs:101-105 | `NonZeroU32::new` is None exactly for zero and keeps any other value |
| Textures.ImageTextureDescriptor | src/models/texture/texture_static.rs:81-91 | a single 2D Rgba8UnormSrgb texture of the image's size, bindable and a copy destination |
| Textures.UploadLayout | src/models/texture/texture_static.rs:101-105 | offset 0; 4 * width bytes per row when that fits in u32, none for width 0; rows per image the height, none for 0 |
| Textures.UploadCoversImage | src/models/texture/texture_static.rs:101-105 | for a non-empty image rows times row pitch is 4 * width * height bytes |
| Initialize.GridInstance | src/state/initialize.rs:71-84 | the instance at column x of row z; its position and rotation are stated by Initialize.OriginPoint |
| Initialize.Grid | src/state/initialize.rs:67-86 | the flattened rows; their layout is stated by Initialize.GridLayout and Initialize.OriginInstance |
| Initialize.Row | src/state/initialize.rs:70-85 | each row has ten instances |
| Initialize.RowsAt | src/state/initialize.rs:67-86 | instance k of the flattened rows is column k % 10 of row k / 10 |
| Initialize.GridAt | src/state/initialize.rs:67-86 | the grid has 100 instances, instance k at column k % 10, row k / 10 |
| Initialize.GridLayout | src/state/initialize.rs:10-12 | instance k sits at (k % 10 - 5, 0, k / 10 - 5), so the grid spans -5..4 on x and z |
| Initialize.OriginPoint | src/state/initialize.rs:71-79 | only grid point (5, 5) lands on the origin, and it gets the identity rotation |
| Initialize.OriginInstance | src/state/initialize.rs:67-86 | exactly instance 55 is at the origin with the identity rotation; every other gets 45 degrees about its own direction |
| Initialize.GetInstances | src/state/initialize.rs:67-99 | the set is the grid, and the buffer holds its packed matrices, 64 bytes each, usable as vertex buffer and copy destination |
| Initialize.SurfaceConfigurationFor | src/state/initialize.rs:199-216 | render attachment in the first supported format at the window's size, FIFO presentation, applied to the surface once |
| Initialize.SurfaceConfigurationOf | src/state/initialize.rs:205-211 | the configuration `surface_configuration` builds; its fields are stated by Initialize.SurfaceConfigurationFollowsSize |
| Initialize.SurfaceConfigurationFollowsSize | src/state/initialize.rs:199-216 | the configuration's format, mode and size are as stated, and two configurations agree if and only if the sizes do |
| Initialize.PipelineState | src/state/initialize.rs:101-161 | groups [texture, camera]; vertex buffers exactly [`Vertex::desc()`, `InstanceRaw::desc()`], per vertex then per instance, at clash-free locations; surface format with REPLACE blend and all channels written; filled triangle lists, Ccw front faces, back faces culled; no depth, one sample, mask `!0`; no pentagon triangle is culled |
| Initialize.InstanceRawSize | src/state/initialize.rs:88-96 | the instance buffer's element size, `size_of::<InstanceRaw>()`, is 64 bytes and equals the stride `InstanceRaw::desc()` declares |
| Initialize.RenderPipelineOf | src/state/initialize.rs:101-161 | the pipeline descriptor `render_pipeline` builds; its properties are stated by Initialize.PipelineState |
| AppState.FrameCommands | src/state/render.rs:17-41 | the commands the pass records; their order and arguments are stated by AppState.FrameOrder |
| AppState.FrameOrder | src/state/render.rs:17-41 | the pass clears to (0.1, 0.2, 0.3, 1) and stores; the pipeline is set once before every bind and the draw; group 0 texture, group 1 camera; slot 0 geometry, slot 1 instances; 16-bit indices; one draw of all indices for every instance |
| AppState.State.Assemble | src/state/mod.rs:13-27 | a freshly assembled state is consistent and has an empty trace |
| AppState.State.Input | src/state/state_impl.rs:9-11 | the controller processes the event, its answer is returned and nothing else changes |
| AppState.State.ReconfigureSurface | src/state/state_impl.rs:14-16 | the unchanged configuration is applied again |
| AppState.State.Resize | src/state/state_impl.rs:18-31 | a zero side changes nothing; otherwise size, configuration and a surface-sized depth texture follow the new size, the surface is reconfigured once, and consistency is preserved |
| AppState.State.Update | src/state/state_impl.rs:33-42 | the controller moves the camera, the uniform is recomputed from the moved camera, every instance turns one step, and the turned matrices then the uniform are written, in that order |
| AppState.State.Render | src/state/render.rs:9-49 | a failed acquisition is returned with nothing recorded; otherwise exactly one command buffer holding the frame's pass is submitted, then the frame presented |
| AppState.UpdateUploadsTurnedInstances | src/state/state_impl.rs:36-40 | the instance upload has one matrix per instance and keeps each instance's position |
| LegacyState.InitialCamera | src/state.rs:54-66 | the camera `new` places; its properties are stated by LegacyState.InitialCameraFrames |
| LegacyState.State.Assemble | src/state.rs:42-92 | a freshly assembled legacy state is consistent, has an empty trace and holds the initial camera for its configuration |
| LegacyState.InitialCameraFrames | src/state.rs:54-66 | the initial camera has 0 < znear < zfar, aspect times height is width, and looks from (0, 1, 2) towards the origin |
| LegacyState.PipelineState | src/state.rs:231-290 | groups [texture, camera]; vertex buffers exactly [`Vertex::desc()`], per vertex at locations {0, 1}; surface format with REPLACE blend and all channels written; filled triangle lists, Ccw front faces, back faces culled; no depth, one sample, mask `!0`; no pentagon triangle is culled |
| LegacyState.RenderPipelineOf | src/state.rs:231-290 | the pipeline descriptor the legacy `render_pipeline` builds; its properties are stated by LegacyState.PipelineState |
| LegacyState.DiffuseEntries | src/state.rs:178-229 | binding 0 is the texture's view and binding 1 its sampler |
| LegacyState.FrameOrder | src/state.rs:106-133 | the pass clears to (0.1, 0.2, 0.3, 1) and stores, without depth; the given pipeline is set once, before every bind and the draw; group 0 texture, group 1 camera; only vertex slot 0 is bound, to the geometry; 16-bit indices from the geometry; exactly one draw, of all indices for a single instance |
| LegacyState.FrameCommands | src/state.rs:106-133 | the commands the legacy pass records; their order and arguments are stated by LegacyState.FrameOrder |
| LegacyState.State.Input | src/state.rs:94-96 | the controller processes the event and its answer is returned |
| LegacyState.State.Resize | src/state.rs:143-150 | a zero side changes nothing; otherwise size and configuration follow and the surface is reconfigured once, preserving consistency |
| LegacyState.State.Update | src/state.rs:152-156 | the camera moves, the uniform is recomputed from it, and the uniform is written once |
| LegacyState.State.Render | src/state.rs:98-141 | a failed acquisition is returned with nothing recorded; otherwise the pass is submitted and the frame presented |
| EventLoop.Driver.Start | src/lib.rs:46-49 | the loop starts polling with the start instant as the last redraw time |
| EventLoop.Driver.Handle | src/lib.rs:49-105 | the calls made, the control flow and the last redraw time after one event, by event kind |
| EventLoop.Calls | src/lib.rs:49-105 | the calls one event causes, the reference EventLoop.Driver.Handle is proved against; its lemmas below state what it means |
| EventLoop.ExitRequested | src/lib.rs:62-72 | whether one event sets the control flow to `Exit`; characterized by EventLoop.ExitCases |
| EventLoop.AfterRender | src/lib.rs:90-98 | what follows a frame attempt, by render result; stated by the three lemmas on render errors |
| EventLoop.ReconfigureExactlyWhenLost | src/lib.rs:90-98 | the surface is reconfigured exactly once on a redraw of this window whose render lost the surface, never otherwise, and that does not exit |
| EventLoop.OutOfMemoryExits | src/lib.rs:95 | running out of memory exits and makes no call after `render` |
| EventLoop.OtherErrorsOnlyLogged | src/lib.rs:97 | any other render error is logged and nothing else happens |
| EventLoop.UpdateBeforeRender | src/lib.rs:82-99 | `update` and `render` are called if and only if this window is redrawn, `update` first with the elapsed time, `render` once |
| EventLoop.ConsumedStopsThere | src/lib.rs:57-60 | an event the controller consumed reaches nothing else and does not exit |
| EventLoop.ResizeForwarded | src/lib.rs:73-78 | `resize(s)` is called if and only if an unconsumed Resized(s) or ScaleFactorChanged(s) arrives for this window, once, after `input` |
| EventLoop.ExitCases | src/lib.rs:62-72 | the loop exits if and only if an unconsumed close request or Escape press arrives, or a redraw runs out of memory |
| EventLoop.MouseOnlyWhilePressed | src/lib.rs:51-56 | the mouse delta reaches the controller if and only if the mouse moved while pressed |
| EventLoop.OtherWindowIgnored | src/lib.rs:57-60 | window events and redraws for another window make no call and do not exit |
| Resources.MeshVertexSize | src/resources.rs:151-168 | the mesh vertex is 56 bytes: fourteen floats, no padding |
| Resources.MeshVertexEnd | src/resources.rs:151-168 | its last field ends at byte 56 |
| Resources.MeshVertexTangentsEnd | src/resources.rs:151-168 | normal, tangent and bitangent laid out from byte 20 end at byte 56 |
| Resources.VertexAt | src/resources.rs:152-167 | vertex i read from the flat arrays with a zero tangent frame; its round trip is Resources.BuildVerticesRoundTrip |
| Resources.BuildVertices | src/resources.rs:151-168 | one vertex per three position floats |
| Resources.BuildVerticesRoundTrip | src/resources.rs:151-168 | flattening the built vertices gives back the position, texture-coordinate and normal arrays, and tangent frames start at zero |
| Resources.Reshape3RoundTrip | src/resources.rs:151-168 | flattening undoes grouping floats by three |
| Resources.Reshape2RoundTrip | src/resources.rs:151-168 | flattening undoes grouping floats by two |
| Resources.PositionsRoundTrip | src/resources.rs:151-168 | the built positions flatten back to the position array |
| Resources.TexCoordsRoundTrip | src/resources.rs:151-168 | the built texture coordinates flatten back to their array |
| Resources.NormalsRoundTrip | src/resources.rs:151-168 | the built normals flatten back to the normal array |
| Resources.TriangleFrame | src/resources.rs:176-210 | one triangle's tangent and negated bitangent; stated by Resources.FrameSolves and Resources.FrameForm |
| Resources.SolveComponent | src/resources.rs:204-208 | the 2x2 solve with the inverse determinant satisfies both equations |
| Resources.SolveEdges | src/resources.rs:204-208 | tangent and bitangent recombine the texture-space edges into the position edges |
| Resources.FrameSolves | src/resources.rs:176-210 | each triangle's frame solves the edge system stated in the source's comment, with the stored bitangent negated |
| Resources.FrameForm | src/resources.rs:204-208 | the stored frame is the solve scaled by the inverse determinant, bitangent times -r |
| Resources.OccurrencesIsMultiplicity | src/resources.rs:225-227 | the per-vertex count is the vertex's multiplicity in the index list |
| Resources.UnusedVertexSum | src/resources.rs:211-222 | a vertex no triangle names accumulates nothing |
| Resources.FrameSumStep | src/resources.rs:211-222 | each slot adds its own triangle's frame to the vertex it names |
| Resources.AddTangent | src/resources.rs:211-214 | adding a slot's tangent advances the accumulated tangents by one slot |
| Resources.AddBiTangent | src/resources.rs:218-222 | adding a slot's bitangent advances the accumulated bitangents by one slot |
| Resources.CountSlot | src/resources.rs:225-227 | incrementing a corner's count advances the counts by one slot |
| Resources.AddTangents | src/resources.rs:211-214 | the tangent adds of one triangle leave attributes and bitangents alone and advance tangents by three slots |
| Resources.AddBiTangents | src/resources.rs:218-222 | the bitangent adds of one triangle leave attributes and tangents alone and advance bitangents by three slots |
| Resources.CountCorners | src/resources.rs:225-227 | one triangle's counts advance by three slots |
| Resources.AccumulateTriangles | src/resources.rs:171-228 | after the loop each vertex holds its start plus the frames of every triangle naming it, and its count is its number of occurrences |
| Resources.Averaged | src/resources.rs:231-237 | the corrected averaging, a zero count leaving the frame as it is; the reference Resources.AverageTangents is proved against |
| Resources.AveragedAsWritten | src/resources.rs:231-237 | the averaging as written has no finite result when the count is zero and matches the corrected mean otherwise |
| Resources.AverageTangents | src/resources.rs:231-237 | each vertex's frame is divided by its count, left alone for count zero |
| Resources.FinalVertices | src/resources.rs:150-237 | one uploaded vertex per parsed vertex |
| Resources.MeshBuildOf | src/resources.rs:150-259 | the mesh record and buffer contents for one model, the reference Resources.ModelToMesh is proved against |
| Resources.ModelToMesh | src/resources.rs:150-259 | the vertex buffer holds the averaged vertices (56 bytes each), the index buffer the indices (4 bytes each); the mesh is named after the file with the index count mod 2^32 and the material id or 0 |
| Resources.FinalVertexIsMean | src/resources.rs:150-237 | every uploaded vertex keeps its parsed attributes, and n times its tangent and bitangent is the sum over its n triangles; unused vertices keep zero |
| Resources.MeanScalesBack | src/resources.rs:231-237 | dividing by n then multiplying by n gives the vector back |
| Resources.UnusedVertexGetsNaN | src/resources.rs:231-237 | on a one-vertex mesh with no faces the averaging as written divides by zero, where the corrected averaging keeps a zero tangent |
| Resources.MaterialEntries | src/resources.rs:119-140 | four entries at bindings 0..3: view, sampler, view, sampler |
| Resources.EntriesPairTextures | src/resources.rs:119-140 | bindings 0 and 1 carry the diffuse texture and 2 and 3 the normal map, and the textures can be read back from the entries |
| Resources.ModelToMaterial | src/resources.rs:110-148 | the diffuse error is returned first, then the normal-map error; success if and only if both load, with the name, both textures and the bind group over their entries |
| Resources.MaterialsOf | src/resources.rs:95-99 | the materials in file order or the first error; characterized by Resources.MaterialsInOrder |
| Resources.MaterialsInOrder | src/resources.rs:95-99 | all materials convert if and only if each does, then material i comes from parsed material i; otherwise the error is the first failing material's |
| Resources.ConvertMaterials | src/resources.rs:95-99 | the loop's result is the materials in file order, or the first material's error |
| Resources.BuildMeshes | src/resources.rs:101-104 | one mesh build per parsed model, in order, model k built with its own buffers |
| Resources.LoadModel | src/resources.rs:71-107 | the parse error, then the MTL error, then the first material error is returned, and then no mesh is built; on success the materials in order and one mesh per parsed model, in order; only the success path asks anything of the parsed meshes |

## Left out

- Device, adapter and surface creation, async requests, file and network reads (`load_string`, `load_binary`, `load_texture`), OBJ and MTL parsing, and image decoding: these are I/O or foreign code. Their results are parameters.
- The MTL library read inside the parser's callback (`src/resources.rs:89`) unwraps `load_string`, so an unreadable MTL file panics rather than returning an error. The `materials` result of `Resources.ObjFile` stands only for the error the MTL parser returns; the panic is not modelled.
- `State::new` in `src/state/state_static.rs` and in `src/state.rs`: only the fields they assemble are modelled, as the `Assemble` constructors, plus the legacy initial camera.
- `src/models/configuration.rs`, `src/init.rs` and the logging set-up are not part of this model.
- The camera controller's internals and the yaw/pitch camera's `calc_matrix`, `mouse_pressed` and `process_mouse` are not part of this model. They are uninterpreted, and the model fixes only when they are called.
- Sine, cosine, square root, `normalize`, `perspective` and `look_at_rh` are uninterpreted. The 6-degree step is modelled only as a unit rotation about y.
- `f32` rounding, NaN and infinity: arithmetic is exact over the reals. The `1.0 / n` with n = 0 in the averaging is reported under Findings. The `1.0 / det` with a zero texture-space determinant is excluded by `Resources.TriangleMesh`, so such meshes are not modelled.
- Projections.Aspect: `height == 0` is excluded, because the Rust division then produces infinity or NaN, which the real model cannot represent.
- LegacyState.InitialCamera: `config.height == 0` is excluded for the same reason; `State::new` in `src/state.rs` divides by it without a guard, and the camera's aspect is then infinity or NaN.
- LegacyState.InitialCameraFrames: stated only for `config.height > 0`, as LegacyState.InitialCamera is.
- LegacyState.State.Assemble: requires `config.height > 0` because it builds LegacyState.InitialCamera; a window of height 0 at start-up is not modelled.
- `Instances::len` and the `as _` in the draw call: the model reduces the count modulo 2^32, as a `u32` cast does.
- The wasm32 configuration: there, close and Escape do not exit and a canvas is attached. Only the native build is modelled.
- The snapshots disagree in places: `state.update(dt)` in `src/lib.rs` against `update()` in `state_impl.rs`; the one-argument `update_view_proj` called by both states; the `depth_texture` field that `state_impl.rs` writes but `src/state/mod.rs` does not declare; the normal texture that `model_to_material` stores but `src/models/model.rs` does not declare; and the `tangent` and `bi_tangent` fields that `model_to_mesh` sets on `ModelVertex` (`src/resources.rs:152-167`) but `src/models/model.rs:28-32` does not declare. The model keeps both vertices apart: `Models.ModelVertex` is the declared 32-byte vertex and `Resources.MeshVertex` the 56-byte vertex `model_to_mesh` uploads. The model follows the code that performs each operation. The elapsed time is recorded in the call, and the one-argument uniform update is uninterpreted.
- AppState.State.Render and LegacyState.State.Render: frame acquisition is a parameter, and texture views and encoders are not modelled beyond the recorded commands.
- Buffer labels, debug names and log message text are not modelled.

## Findings

| source | as written | input that shows it | evidently intended | confidence | as-written member | corrected member |
|---|---|---|---|---|---|---|
| src/models/model.rs:39 | the normal (`[f32; 3]`) is declared to the pipeline as `Float32x2` | any vertex: bytes 28..32, the normal's z, are read by no attribute | `2 => Float32x3`, so that each attribute reads its whole field | not executed; high | Models.NormalTailUnread | Models.IntendedDescMatchesFields |
| src/resources.rs:231-237 | every vertex's frame is scaled by `1.0 / n as f32`, including when n = 0 | a mesh with a vertex that no face indexes (`Resources.UNUSED_VERTEX_MESH`): its tangent becomes 0 * inf = NaN | leave a vertex that no triangle names with a zero frame | not executed; low, because triangulated single-index OBJ output normally uses every vertex | Resources.UnusedVertexGetsNaN | Resources.FinalVertexIsMean |
