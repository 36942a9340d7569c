/** The loaded-model records and the model vertex with its vertex-buffer layout. */
module Models {
  import opened Base
  import opened Cgmath
  import opened Wgpu
  import ReprC

  /** A mesh once its buffers exist: index count and material slot. */
  datatype Mesh = Mesh(name: string, vertexBuffer: BufferId, indexBuffer: BufferId, numElements: u32, material: nat)

  /** The model vertex: position, texture coordinate and normal, repr(C). */
  datatype ModelVertex = ModelVertex(position: Vec3, texCoords: Vec2, normal: Vec3)

  /** The repr(C) fields of `ModelVertex`: `[f32; 3]`, `[f32; 2]`, `[f32; 3]`. */
  const MODEL_VERTEX_FIELDS: seq<ReprC.Field> := [ReprC.F32s(3), ReprC.F32s(2), ReprC.F32s(3)]

  /** `ModelVertex::desc()` as written: stride `size_of::<ModelVertex>()` and
      `vertex_attr_array![0 => Float32x3, 1 => Float32x2, 2 => Float32x2]`. */
  function Desc(): (layout: VertexBufferLayout)
    ensures layout.arrayStride == 32
    ensures layout.stepMode == PerVertex
    ensures layout.attributes == [VertexAttribute(0, 0, Float32x3), VertexAttribute(12, 1, Float32x2), VertexAttribute(20, 2, Float32x2)]
    ensures Packed(layout.attributes, 0) && AttributesEnd(layout.attributes, 0) == 28
    ensures WithinStride(layout) && Disjoint(layout.attributes)
  {
    StructSize();
    var layout := VertexBufferLayout(ReprC.SizeOf(MODEL_VERTEX_FIELDS), PerVertex,
      VertexAttrArray([(0, Float32x3), (1, Float32x2), (2, Float32x2)]));
    PackedDisjoint(layout.attributes, 0);
    layout
  }

  /** The normal field spans bytes 20..32 of the vertex, but its attribute is two floats wide:
      no attribute of `Desc` reads bytes 28..32, so the normal's z component never reaches the
      shader. */
  lemma NormalTailUnread()
    ensures ReprC.Offsets(MODEL_VERTEX_FIELDS, 0)[2] == 20
    ensures ReprC.Offsets(MODEL_VERTEX_FIELDS, 0)[2] + MODEL_VERTEX_FIELDS[2].size == Desc().arrayStride
    ensures forall i :: 0 <= i < |Desc().attributes| ==> Desc().attributes[i].End() <= 28
    ensures FormatSize(Desc().attributes[2].format) < MODEL_VERTEX_FIELDS[2].size
  {
    FieldOffsets();
  }

  lemma FieldOffsets()
    ensures ReprC.Offsets(MODEL_VERTEX_FIELDS, 0) == [0, 12, 20]
  {
    var fields := MODEL_VERTEX_FIELDS;
    assert ReprC.WordFields(fields);
    ReprC.WordFieldsUnpadded(fields, 0);
    var offs := ReprC.Offsets(fields, 0);
    assert offs[0] == 0;
    assert offs[1] == offs[0] + fields[0].size == 12;
    assert offs[2] == offs[1] + fields[1].size == 20;
  }

  lemma StructSize()
    ensures ReprC.SizeOf(MODEL_VERTEX_FIELDS) == 32
  {
    FieldOffsets();
    ReprC.WordStructSize(MODEL_VERTEX_FIELDS);
    ReprC.WordFieldsEnd(MODEL_VERTEX_FIELDS, 0);
  }

  /** The layout the struct calls for: the normal read as `Float32x3`. */
  function IntendedDesc(): (layout: VertexBufferLayout)
    ensures layout.arrayStride == 32 && layout.stepMode == PerVertex
    ensures layout.attributes == [VertexAttribute(0, 0, Float32x3), VertexAttribute(12, 1, Float32x2), VertexAttribute(20, 2, Float32x3)]
    ensures Packed(layout.attributes, 0)
  {
    StructSize();
    VertexBufferLayout(ReprC.SizeOf(MODEL_VERTEX_FIELDS), PerVertex,
      VertexAttrArray([(0, Float32x3), (1, Float32x2), (2, Float32x3)]))
  }

  /** With `IntendedDesc`, attribute i reads exactly field i and the attributes end at the stride. */
  lemma IntendedDescMatchesFields()
    ensures AttributesEnd(IntendedDesc().attributes, 0) == IntendedDesc().arrayStride
    ensures |IntendedDesc().attributes| == |MODEL_VERTEX_FIELDS|
    ensures forall i :: 0 <= i < |MODEL_VERTEX_FIELDS| ==>
      IntendedDesc().attributes[i].offset == ReprC.Offsets(MODEL_VERTEX_FIELDS, 0)[i]
      && FormatSize(IntendedDesc().attributes[i].format) == MODEL_VERTEX_FIELDS[i].size
      && IntendedDesc().attributes[i].shaderLocation == i
  {
    FieldOffsets();
  }
}
