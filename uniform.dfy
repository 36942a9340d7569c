/** The camera's uniform block: the eye position and the combined view-projection matrix. It is a
    plain `Copy` value, so its in-place update is modelled as the value it is overwritten with. */
module Uniforms {
  import opened Cgmath
  import ReprC
  import Controller
  import Cameras
  import Projections

  datatype CameraUniform = CameraUniform(viewPosition: Vec4, viewProj: Mat4)

  /** `CameraUniform::new`: position all zeros, matrix the identity. */
  function New(): (u: CameraUniform)
    ensures u.viewPosition == ZERO4 && u.viewProj == IDENTITY
  {
    CameraUniform(ZERO4, IDENTITY)
  }

  /** The initial matrix leaves every vector as it is. */
  lemma NewIsNeutral(v: Vec4)
    ensures MatVec(New().viewProj, v) == v
  {
  }

  /** `update_view_proj(&mut self, camera, projection)`: the homogeneous eye position, and the
      camera's view matrix followed by the projection, depth remapped last. */
  function UpdateViewProj(u: CameraUniform, camera: Controller.Camera, projection: Projections.CameraProjection): (r: CameraUniform)
    reads projection
    ensures r.viewPosition == ToHomogeneous(camera.position) && r.viewPosition.w == 1.0
    ensures r.viewProj == Cameras.RemapColumns(MatMul(
      Perspective(projection.fovy, projection.aspect, projection.znear, projection.zfar),
      Controller.ViewMatrix(camera)))
  {
    var proj := Perspective(projection.fovy, projection.aspect, projection.znear, projection.zfar);
    Cameras.RemapAssociates(proj, Controller.ViewMatrix(camera));
    CameraUniform(ToHomogeneous(camera.position), MatMul(projection.CalcMatrix(), Controller.ViewMatrix(camera)))
  }

  /** Both fields are overwritten: the result does not depend on the old contents, so a second
      update with the same arguments changes nothing. */
  lemma UpdateOverwrites(u: CameraUniform, u': CameraUniform, camera: Controller.Camera, projection: Projections.CameraProjection)
    ensures UpdateViewProj(u, camera, projection) == UpdateViewProj(u', camera, projection)
    ensures UpdateViewProj(UpdateViewProj(u, camera, projection), camera, projection) == UpdateViewProj(u, camera, projection)
  {
  }

  /** The repr(C) fields: `[f32; 4]` then `[[f32; 4]; 4]`. */
  const CAMERA_UNIFORM_FIELDS: seq<ReprC.Field> := [ReprC.F32s(4), ReprC.F32s(16)]

  /** The matrix starts at byte 16 and the block is 16 + 64 = 80 bytes. */
  lemma Layout()
    ensures ReprC.Offsets(CAMERA_UNIFORM_FIELDS, 0) == [0, 16]
    ensures ReprC.SizeOf(CAMERA_UNIFORM_FIELDS) == 80
  {
    var fields := CAMERA_UNIFORM_FIELDS;
    assert ReprC.WordFields(fields);
    ReprC.WordFieldsUnpadded(fields, 0);
    var offs := ReprC.Offsets(fields, 0);
    assert offs[1] == offs[0] + fields[0].size == 16;
    ReprC.WordStructSize(fields);
    ReprC.WordFieldsEnd(fields, 0);
  }
}
