/** The look-at camera and the matrix that carries OpenGL clip space into wgpu's: OpenGL puts
    depth in [-1, 1], wgpu in [0, 1]. */
module Cameras {
  import opened Cgmath

  /** `OPENGL_TO_WGPU_MATRIX`. `Matrix4::new` takes its entries column by column, so the third
      column is (0, 0, 0.5, 0) and the fourth (0, 0, 0.5, 1). */
  const OPENGL_TO_WGPU_MATRIX := Mat4(Vec4(1.0, 0.0, 0.0, 0.0), Vec4(0.0, 1.0, 0.0, 0.0),
                                      Vec4(0.0, 0.0, 0.5, 0.0), Vec4(0.0, 0.0, 0.5, 1.0))

  /** The depth remap on one homogeneous vector: z becomes (z + w) / 2, the rest is kept. */
  function RemapDepth(v: Vec4): Vec4 {
    Vec4(v.x, v.y, 0.5 * v.z + 0.5 * v.w, v.w)
  }

  /** The depth remap applied to every column of a matrix. */
  function RemapColumns(m: Mat4): Mat4 {
    Mat4(RemapDepth(m.c0), RemapDepth(m.c1), RemapDepth(m.c2), RemapDepth(m.c3))
  }

  /** Multiplying by `OPENGL_TO_WGPU_MATRIX` is the depth remap. */
  lemma RemapMatrix(v: Vec4)
    ensures MatVec(OPENGL_TO_WGPU_MATRIX, v) == RemapDepth(v)
  {
  }

  /** ... and on a matrix it remaps each column. */
  lemma RemapProduct(m: Mat4)
    ensures MatMul(OPENGL_TO_WGPU_MATRIX, m) == RemapColumns(m)
  {
    RemapMatrix(m.c0);
    RemapMatrix(m.c1);
    RemapMatrix(m.c2);
    RemapMatrix(m.c3);
  }

  /** A column-remapped matrix applied to v is the remap of the original applied to v. */
  lemma RemapColumnsApply(p: Mat4, v: Vec4)
    ensures MatVec(RemapColumns(p), v) == RemapDepth(MatVec(p, v))
  {
    var r := MatVec(RemapColumns(p), v);
    var q := MatVec(p, v);
    assert r.z == (0.5 * p.c0.z + 0.5 * p.c0.w) * v.x + (0.5 * p.c1.z + 0.5 * p.c1.w) * v.y
                 + (0.5 * p.c2.z + 0.5 * p.c2.w) * v.z + (0.5 * p.c3.z + 0.5 * p.c3.w) * v.w;
    assert q.z == p.c0.z * v.x + p.c1.z * v.y + p.c2.z * v.z + p.c3.z * v.w;
    assert q.w == p.c0.w * v.x + p.c1.w * v.y + p.c2.w * v.z + p.c3.w * v.w;
  }

  /** `OPENGL_TO_WGPU_MATRIX * p * v`, multiplied left to right as Rust does, is the remap of
      p * v: the remap is the last thing applied. */
  lemma RemapAssociates(p: Mat4, v: Mat4)
    ensures MatMul(MatMul(OPENGL_TO_WGPU_MATRIX, p), v) == RemapColumns(MatMul(p, v))
  {
    RemapProduct(p);
    RemapColumnsApply(p, v.c0);
    RemapColumnsApply(p, v.c1);
    RemapColumnsApply(p, v.c2);
    RemapColumnsApply(p, v.c3);
  }

  /** For a point (w = 1) the remap sends depth -1 to 0 and 1 to 1, keeps x, y and w, sends
      [-1, 1] into [0, 1], and keeps the depth order. */
  lemma DepthRange(x: real, y: real, z: real, z': real)
    ensures RemapDepth(Vec4(x, y, -1.0, 1.0)).z == 0.0
    ensures RemapDepth(Vec4(x, y, 1.0, 1.0)).z == 1.0
    ensures RemapDepth(Vec4(x, y, z, 1.0)).x == x && RemapDepth(Vec4(x, y, z, 1.0)).y == y
    ensures RemapDepth(Vec4(x, y, z, 1.0)).w == 1.0
    ensures -1.0 <= z <= 1.0 ==> 0.0 <= RemapDepth(Vec4(x, y, z, 1.0)).z <= 1.0
    ensures z < z' ==> RemapDepth(Vec4(x, y, z, 1.0)).z < RemapDepth(Vec4(x, y, z', 1.0)).z
  {
  }

  /** The look-at camera; the field of view is in degrees. */
  datatype Camera = Camera(aspect: real, eye: Vec3, fovY: real, target: Vec3, up: Vec3, zNear: real, zFar: real)
  {
    /** `build_view_projection_matrix`: the view (look-at) is applied first, then the
        perspective, then the depth remap. */
    function BuildViewProjectionMatrix(): (m: Mat4)
      ensures m == RemapColumns(MatMul(Perspective(DegToRad(fovY), aspect, zNear, zFar), LookAtRh(eye, target, up)))
    {
      var view := LookAtRh(eye, target, up);
      var proj := Perspective(DegToRad(fovY), aspect, zNear, zFar);
      RemapAssociates(proj, view);
      MatMul(MatMul(OPENGL_TO_WGPU_MATRIX, proj), view)
    }
  }
}
