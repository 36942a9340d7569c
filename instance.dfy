/** The instance set: one transform (position and rotation) per drawn copy of the mesh, turned a
    little about the y axis every tick, and packed into one 4x4 model matrix per instance for the
    per-instance vertex buffer. */
module InstanceSet {
  import opened Base
  import opened Cgmath
  import opened Wgpu
  import ReprC
  import Vertices
  import Models

  datatype Instance = Instance(position: Vec3, rotation: Quat)

  /** What the GPU receives for an instance: its model matrix, `[[f32; 4]; 4]` column-major. */
  datatype InstanceRaw = InstanceRaw(model: Mat4)

  /** The sine and cosine of 3 degrees, half of the 6-degree step; only that the angle is acute
      and the pair lies on the unit circle is modelled. */
  const SIN_COS_3_DEG: AcuteSinCos

  /** `Quaternion::from_angle_y(Deg(6.0))`: the rotation applied to every instance each tick. */
  const STEP := FromAngleY(SIN_COS_3_DEG)

  /** `InstanceRaw::from(&Instance)`: translation times rotation. */
  function RawOf(inst: Instance): InstanceRaw {
    InstanceRaw(MatMul(FromTranslation(inst.position), QuatToMat4(inst.rotation)))
  }

  /** The packed matrix keeps the rotation's first three columns and carries the position, with
      w = 1, in its fourth. */
  lemma RawOfColumns(inst: Instance)
    ensures RawOf(inst).model == QuatToMat4(inst.rotation).(c3 := ToHomogeneous(inst.position))
  {
    TranslationAfter(inst.position, QuatToMat4(inst.rotation));
  }

  /** `iter().map(Into::into).collect()`: one raw per instance, in order. */
  function RawsOf(items: seq<Instance>): seq<InstanceRaw> {
    Map(RawOf, items)
  }

  /** `STEP` turns about the y axis only and is a unit quaternion. */
  lemma StepIsUnitYRotation()
    ensures STEP.x == 0.0 && STEP.z == 0.0 && NormSq(STEP) == 1.0
  {
  }

  /** An instance after one tick by `step`: same position, rotation multiplied on the right by
      `step`. The renderer's tick uses `STEP`. */
  function Turned(inst: Instance, step: Quat): Instance {
    inst.(rotation := QuatMul(inst.rotation, step))
  }

  /** The whole set after one tick. */
  function Tick(items: seq<Instance>, step: Quat): seq<Instance> {
    seq(|items|, i requires 0 <= i < |items| => Turned(items[i], step))
  }

  /** The set after k ticks. */
  function Ticks(items: seq<Instance>, step: Quat, k: nat): seq<Instance> {
    if k == 0 then items else Tick(Ticks(items, step, k - 1), step)
  }

  /** r * step * step * ... (k factors, multiplied on the right one at a time). */
  function RotatedBy(r: Quat, step: Quat, k: nat): Quat {
    if k == 0 then r else QuatMul(RotatedBy(r, step, k - 1), step)
  }

  /** The instance set, a vector the renderer updates in place. */
  class Instances {
    var items: seq<Instance>

    /** `From<Vec<Instance>>`: wraps the vector unchanged. */
    constructor From(src: seq<Instance>)
      ensures items == src && Len() == |src|
    {
      items := src;
    }

    function Len(): nat
      reads this
    {
      |items|
    }

    /** `get_raw`: the packed matrices, one per instance, in order. */
    function GetRaw(): (raw: seq<InstanceRaw>)
      reads this
      ensures |raw| == Len()
      ensures forall i :: 0 <= i < Len() ==> raw[i] == RawOf(items[i])
    {
      RawsOf(items)
    }

    /** `update`: turns every instance by `STEP`, in place. */
    method Update()
      modifies this
      ensures items == Tick(old(items), STEP)
    {
      var i := 0;
      while i < |items|
        invariant 0 <= i <= |items| == |old(items)|
        invariant forall j :: 0 <= j < i ==> items[j] == Turned(old(items)[j], STEP)
        invariant forall j :: i <= j < |items| ==> items[j] == old(items)[j]
      {
        var rotation := items[i].rotation;
        var amount := STEP;
        items := items[i := items[i].(rotation := QuatMul(rotation, amount))];
        i := i + 1;
      }
    }
  }

  /** After k ticks the set has the same length, every position is unchanged, and instance i's
      rotation is its first rotation turned k times. */
  lemma {:induction false} TicksAt(items: seq<Instance>, step: Quat, k: nat)
    ensures |Ticks(items, step, k)| == |items|
    ensures forall i :: 0 <= i < |items| ==>
      Ticks(items, step, k)[i].position == items[i].position
      && Ticks(items, step, k)[i].rotation == RotatedBy(items[i].rotation, step, k)
  {
    if k > 0 {
      TicksAt(items, step, k - 1);
    }
  }

  /** Turning by a unit rotation about the y axis (such as `STEP`) never changes a rotation's
      norm, so the instances are never scaled. */
  lemma {:induction false} TurningKeepsNorm(r: Quat, step: Quat, k: nat)
    requires step.x == 0.0 && step.z == 0.0 && NormSq(step) == 1.0
    ensures NormSq(RotatedBy(r, step, k)) == NormSq(r)
  {
    if k > 0 {
      TurningKeepsNorm(r, step, k - 1);
      YRotationNormSq(RotatedBy(r, step, k - 1), step);
    }
  }

  /** The translation column of a packed matrix is the instance's position with w = 1. */
  lemma RawTranslation(items: seq<Instance>, i: nat)
    requires i < |items|
    ensures RawsOf(items)[i].model.c3 == ToHomogeneous(items[i].position)
  {
    RawOfColumns(items[i]);
  }

  /** A tick never moves the translation column of a packed matrix. */
  lemma TickKeepsTranslation(items: seq<Instance>, step: Quat, i: nat)
    requires i < |items|
    ensures RawsOf(Tick(items, step))[i].model.c3 == ToHomogeneous(items[i].position)
  {
    var ticked := Tick(items, step);
    assert ticked[i].position == items[i].position;
    RawTranslation(ticked, i);
  }

  /** The fields of `InstanceRaw`: one `[[f32; 4]; 4]`, i.e. sixteen floats. */
  const INSTANCE_RAW_FIELDS: seq<ReprC.Field> := [ReprC.F32s(16)]

  /** `InstanceRaw::desc()`: stride `size_of::<InstanceRaw>()`, per-instance stepping, and the
      matrix read as four `Float32x4` columns at shader locations 5..8, column k at
      `size_of::<[f32; 4 * k]>()`. */
  function Desc(): (layout: VertexBufferLayout)
    ensures layout.arrayStride == 64 && layout.stepMode == PerInstance
    ensures |layout.attributes| == 4
    ensures forall k :: 0 <= k < 4 ==> layout.attributes[k] == VertexAttribute(16 * k, 5 + k, Float32x4)
    ensures Packed(layout.attributes, 0) && AttributesEnd(layout.attributes, 0) == layout.arrayStride
    ensures Disjoint(layout.attributes) && WithinStride(layout)
  {
    ReprC.WordStructSize(INSTANCE_RAW_FIELDS);
    ReprC.WordFieldsEnd(INSTANCE_RAW_FIELDS, 0);
    var attrs := [
      VertexAttribute(0, 5, Float32x4),
      VertexAttribute(4 * 4, 6, Float32x4),
      VertexAttribute(4 * 8, 7, Float32x4),
      VertexAttribute(4 * 12, 8, Float32x4)];
    PackedDisjoint(attrs, 0);
    VertexBufferLayout(ReprC.SizeOf(INSTANCE_RAW_FIELDS), PerInstance, attrs)
  }

  /** The instance matrix's shader locations 5..8 clash with none of the vertex locations. */
  lemma LocationsDisjoint()
    ensures Locations(Desc().attributes) == {5, 6, 7, 8}
    ensures Locations(Vertices.Desc().attributes) !! Locations(Desc().attributes)
    ensures Locations(Models.Desc().attributes) !! Locations(Desc().attributes)
  {
    var inst := Desc().attributes;
    assert inst[0].shaderLocation == 5 && inst[1].shaderLocation == 6;
    assert inst[2].shaderLocation == 7 && inst[3].shaderLocation == 8;
    var vert := Vertices.Desc().attributes;
    assert Locations(vert) == {0, 1} by {
      assert vert[0].shaderLocation == 0 && vert[1].shaderLocation == 1;
    }
    var model := Models.Desc().attributes;
    assert Locations(model) == {0, 1, 2} by {
      assert model[0].shaderLocation == 0 && model[1].shaderLocation == 1 && model[2].shaderLocation == 2;
    }
  }
}
