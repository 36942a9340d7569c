/** The perspective projection the renderer keeps beside the camera: only its aspect ratio
    changes, when the window is resized. */
module Projections {
  import opened Base
  import opened Cgmath
  import Cameras

  /** `width as f32 / height as f32`. */
  function Aspect(width: u32, height: u32): (a: real)
    requires height > 0
    ensures a >= 0.0
    ensures a * (height as real) == width as real
  {
    width as real / height as real
  }

  /** The aspect ratio depends only on the ratio of the sides. */
  lemma AspectScale(width: u32, height: u32, k: nat)
    requires height > 0 && k > 0
    requires k * width < U32_MODULUS && k * height < U32_MODULUS
    ensures Aspect(k * width, k * height) == Aspect(width, height)
  {
    var a := Aspect(width, height);
    var b := Aspect(k * width, k * height);
    var kr := k as real;
    assert b * (kr * height as real) == kr * width as real;
    assert kr * (b * height as real) == kr * (a * height as real);
    assert b * height as real == a * height as real;
  }

  class CameraProjection {
    var aspect: real
    /** The vertical field of view, in radians. */
    var fovy: real
    var znear: real
    var zfar: real

    /** `CameraProjection::new`; the angle is taken already converted to radians. */
    constructor (width: u32, height: u32, fovy: real, znear: real, zfar: real)
      requires height > 0
      ensures aspect == Aspect(width, height)
      ensures this.fovy == fovy && this.znear == znear && this.zfar == zfar
    {
      aspect := Aspect(width, height);
      this.fovy := fovy;
      this.znear := znear;
      this.zfar := zfar;
    }

    /** `resize`: only the aspect ratio changes, to one that does not depend on the old state. */
    method Resize(width: u32, height: u32)
      requires height > 0
      modifies this`aspect
      ensures aspect == Aspect(width, height)
      ensures fovy == old(fovy) && znear == old(znear) && zfar == old(zfar)
    {
      aspect := Aspect(width, height);
    }

    /** `calc_matrix`: the perspective with its depth remapped to wgpu's [0, 1]. */
    function CalcMatrix(): (m: Mat4)
      reads this
      ensures m == Cameras.RemapColumns(Perspective(fovy, aspect, znear, zfar))
    {
      var proj := Perspective(fovy, aspect, znear, zfar);
      Cameras.RemapProduct(proj);
      MatMul(Cameras.OPENGL_TO_WGPU_MATRIX, proj)
    }
  }
}
