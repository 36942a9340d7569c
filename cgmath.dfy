/** The part of the cgmath crate the renderer relies on, over the reals (an f32 is a real here).
    Vectors, column-major 4x4 matrices and quaternions are written out; what needs trigonometry
    or square roots (perspective, look_at_rh, normalize, the sine and cosine of an angle, pi) is
    an uninterpreted constant: a value or total function whose definition is not modelled. */
module Cgmath {

  datatype Vec2 = Vec2(x: real, y: real)
  datatype Vec3 = Vec3(x: real, y: real, z: real)
  datatype Vec4 = Vec4(x: real, y: real, z: real, w: real)

  /** A 4x4 matrix stored column-major, as cgmath's Matrix4 and `[[f32; 4]; 4]` store it:
      c0..c3 are the columns. */
  datatype Mat4 = Mat4(c0: Vec4, c1: Vec4, c2: Vec4, c3: Vec4)

  /** cgmath's Quaternion { s, v }: the scalar part s and the vector part (x, y, z). */
  datatype Quat = Quat(s: real, x: real, y: real, z: real)

  /** The sine and the cosine of one angle. */
  datatype SinCos = SinCos(sin: real, cos: real)

  /** A (sine, cosine) pair of an angle strictly between 0 and 90 degrees. */
  type AcuteSinCos = sc: SinCos | sc.sin * sc.sin + sc.cos * sc.cos == 1.0 && 0.0 < sc.sin && 0.0 < sc.cos
    witness SinCos(0.6, 0.8)

  type Pi = r: real | 3.14159 < r < 3.14160 witness 3.1415926

  /** The value of pi; only its first five decimals are modelled. */
  const PI: Pi

  /** cgmath's `InnerSpace::normalize` (a division by the Euclidean length); not modelled. */
  const Normalize: Vec3 -> Vec3

  /** cgmath's `perspective(fovy in radians, aspect, near, far)`; not modelled. */
  const Perspective: (real, real, real, real) -> Mat4

  /** cgmath's `Matrix4::look_at_rh(eye, target, up)`; not modelled. */
  const LookAtRh: (Vec3, Vec3, Vec3) -> Mat4

  const ZERO3 := Vec3(0.0, 0.0, 0.0)
  const ZERO4 := Vec4(0.0, 0.0, 0.0, 0.0)

  function Add3(a: Vec3, b: Vec3): Vec3 { Vec3(a.x + b.x, a.y + b.y, a.z + b.z) }
  function Sub3(a: Vec3, b: Vec3): Vec3 { Vec3(a.x - b.x, a.y - b.y, a.z - b.z) }
  function Scale3(a: Vec3, k: real): Vec3 { Vec3(a.x * k, a.y * k, a.z * k) }
  function Sub2(a: Vec2, b: Vec2): Vec2 { Vec2(a.x - b.x, a.y - b.y) }
  function Add4(a: Vec4, b: Vec4): Vec4 { Vec4(a.x + b.x, a.y + b.y, a.z + b.z, a.w + b.w) }
  function Scale4(a: Vec4, k: real): Vec4 { Vec4(a.x * k, a.y * k, a.z * k, a.w * k) }

  /** `Point3::to_homogeneous`: a point gets w = 1. */
  function ToHomogeneous(p: Vec3): Vec4 { Vec4(p.x, p.y, p.z, 1.0) }

  /** Matrix times column vector: the combination of the columns weighted by v. */
  function MatVec(m: Mat4, v: Vec4): Vec4 {
    Add4(Add4(Add4(Scale4(m.c0, v.x), Scale4(m.c1, v.y)), Scale4(m.c2, v.z)), Scale4(m.c3, v.w))
  }

  /** Matrix product: column j of a * b is a times column j of b. */
  function MatMul(a: Mat4, b: Mat4): Mat4 {
    Mat4(MatVec(a, b.c0), MatVec(a, b.c1), MatVec(a, b.c2), MatVec(a, b.c3))
  }

  const IDENTITY := Mat4(Vec4(1.0, 0.0, 0.0, 0.0), Vec4(0.0, 1.0, 0.0, 0.0),
                         Vec4(0.0, 0.0, 1.0, 0.0), Vec4(0.0, 0.0, 0.0, 1.0))

  /** `Matrix4::from_translation(v)`. */
  function FromTranslation(v: Vec3): Mat4 {
    Mat4(Vec4(1.0, 0.0, 0.0, 0.0), Vec4(0.0, 1.0, 0.0, 0.0), Vec4(0.0, 0.0, 1.0, 0.0), Vec4(v.x, v.y, v.z, 1.0))
  }

  /** Translating after a transform that keeps w (last row 0, 0, 0, 1) only replaces its last
      column by the translation. */
  lemma TranslationAfter(p: Vec3, m: Mat4)
    requires m.c0.w == 0.0 && m.c1.w == 0.0 && m.c2.w == 0.0 && m.c3 == Vec4(0.0, 0.0, 0.0, 1.0)
    ensures MatMul(FromTranslation(p), m) == m.(c3 := ToHomogeneous(p))
  {
    var t := FromTranslation(p);
    assert MatVec(t, m.c0) == m.c0 by { TranslateDirection(p, m.c0); }
    assert MatVec(t, m.c1) == m.c1 by { TranslateDirection(p, m.c1); }
    assert MatVec(t, m.c2) == m.c2 by { TranslateDirection(p, m.c2); }
    assert MatVec(t, m.c3) == ToHomogeneous(p) by { TranslateColumn(p, m.c3); }
  }

  /** A direction (w = 0) is left alone by a translation. */
  lemma TranslateDirection(p: Vec3, v: Vec4)
    requires v.w == 0.0
    ensures MatVec(FromTranslation(p), v) == v
  {
    TranslateColumn(p, v);
    assert p.x * v.w == 0.0 && p.y * v.w == 0.0 && p.z * v.w == 0.0;
  }

  /** The translation matrix adds w times the translation to a column. */
  lemma TranslateColumn(p: Vec3, v: Vec4)
    ensures MatVec(FromTranslation(p), v) == Vec4(v.x + p.x * v.w, v.y + p.y * v.w, v.z + p.z * v.w, v.w)
  {
  }

  const QUAT_IDENTITY := Quat(1.0, 0.0, 0.0, 0.0)

  /** The Hamilton product `a * b` of cgmath's `Mul for Quaternion`. */
  function QuatMul(a: Quat, b: Quat): Quat {
    Quat(a.s * b.s - a.x * b.x - a.y * b.y - a.z * b.z,
         a.s * b.x + a.x * b.s + a.y * b.z - a.z * b.y,
         a.s * b.y + a.y * b.s + a.z * b.x - a.x * b.z,
         a.s * b.z + a.z * b.s + a.x * b.y - a.y * b.x)
  }

  function NormSq(q: Quat): real { q.s * q.s + q.x * q.x + q.y * q.y + q.z * q.z }

  /** `Quaternion::from_axis_angle(axis, angle)` given the sine and cosine of HALF the angle:
      `from_sv(cos(angle / 2), axis * sin(angle / 2))`. */
  function FromAxisAngle(axis: Vec3, half: SinCos): Quat {
    Quat(half.cos, axis.x * half.sin, axis.y * half.sin, axis.z * half.sin)
  }

  /** `Quaternion::from_angle_y(angle)` given the sine and cosine of half the angle. */
  function FromAngleY(half: SinCos): Quat {
    Quat(half.cos, 0.0, half.sin, 0.0)
  }

  /** `Matrix4::from(quaternion)`: cgmath's rotation matrix of a quaternion, embedded in 4x4. */
  function QuatToMat4(q: Quat): Mat4 {
    var x2 := q.x + q.x; var y2 := q.y + q.y; var z2 := q.z + q.z;
    var xx2 := x2 * q.x; var xy2 := x2 * q.y; var xz2 := x2 * q.z;
    var yy2 := y2 * q.y; var yz2 := y2 * q.z; var zz2 := z2 * q.z;
    var sy2 := y2 * q.s; var sz2 := z2 * q.s; var sx2 := x2 * q.s;
    Mat4(Vec4(1.0 - yy2 - zz2, xy2 + sz2, xz2 - sy2, 0.0),
         Vec4(xy2 - sz2, 1.0 - xx2 - zz2, yz2 + sx2, 0.0),
         Vec4(xz2 + sy2, yz2 - sx2, 1.0 - xx2 - yy2, 0.0),
         Vec4(0.0, 0.0, 0.0, 1.0))
  }

  /** `Deg(d).into::<Rad>()`. */
  function DegToRad(d: real): real { d * PI / 180.0 }

  /** (a c - b s)^2 + (a s + b c)^2 = (a^2 + b^2)(c^2 + s^2). */
  lemma TwoSquares(a: real, b: real, c: real, s: real)
    ensures (a * c - b * s) * (a * c - b * s) + (a * s + b * c) * (a * s + b * c)
            == (a * a + b * b) * (c * c + s * s)
  {
    calc {
      (a * c - b * s) * (a * c - b * s) + (a * s + b * c) * (a * s + b * c);
      (a * c) * (a * c) - 2.0 * (a * c) * (b * s) + (b * s) * (b * s)
        + (a * s) * (a * s) + 2.0 * (a * s) * (b * c) + (b * c) * (b * c);
      { assert (a * c) * (b * s) == (a * s) * (b * c); }
      (a * c) * (a * c) + (b * s) * (b * s) + (a * s) * (a * s) + (b * c) * (b * c);
      (a * a + b * b) * (c * c + s * s);
    }
  }

  /** Right multiplication by a rotation about the y axis multiplies the squared norm. */
  lemma YRotationNormSq(p: Quat, q: Quat)
    requires q.x == 0.0 && q.z == 0.0
    ensures NormSq(QuatMul(p, q)) == NormSq(p) * NormSq(q)
  {
    var r := QuatMul(p, q);
    assert r.s == p.s * q.s - p.y * q.y;
    assert r.y == p.s * q.y + p.y * q.s;
    assert r.x == p.x * q.s - p.z * q.y;
    assert r.z == p.z * q.s + p.x * q.y;
    TwoSquares(p.s, p.y, q.s, q.y);
    TwoSquares(p.x, p.z, q.s, q.y);
    assert NormSq(q) == q.s * q.s + q.y * q.y;
  }
}
