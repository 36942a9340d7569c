/** The coloured-mesh vertex: a position and a texture coordinate, laid out repr(C), and the
    vertex-buffer layout that tells the pipeline how to read it. */
module Vertices {
  import opened Cgmath
  import opened Wgpu
  import ReprC

  datatype Vertex = Vertex(position: Vec3, texCoords: Vec2)

  /** The repr(C) fields of `Vertex`: `[f32; 3]` then `[f32; 2]`. */
  const VERTEX_FIELDS: seq<ReprC.Field> := [ReprC.F32s(3), ReprC.F32s(2)]

  /** `Vertex::desc()`: stride `size_of::<Vertex>()`, per-vertex stepping, and the attributes of
      `vertex_attr_array![0 => Float32x3, 1 => Float32x2]`. */
  function Desc(): (layout: VertexBufferLayout)
    ensures layout.arrayStride == 20
    ensures layout.stepMode == PerVertex
    ensures layout.attributes == [VertexAttribute(0, 0, Float32x3), VertexAttribute(12, 1, Float32x2)]
    ensures Packed(layout.attributes, 0) && AttributesEnd(layout.attributes, 0) == layout.arrayStride
    ensures WithinStride(layout) && Disjoint(layout.attributes)
  {
    ReprC.WordStructSize(VERTEX_FIELDS);
    var layout := VertexBufferLayout(ReprC.SizeOf(VERTEX_FIELDS), PerVertex, VertexAttrArray([(0, Float32x3), (1, Float32x2)]));
    PackedDisjoint(layout.attributes, 0);
    layout
  }

  /** Each attribute of `Desc` reads exactly the bytes of the struct field it stands for. */
  lemma DescMatchesFields()
    ensures |Desc().attributes| == |VERTEX_FIELDS|
    ensures forall i :: 0 <= i < |VERTEX_FIELDS| ==>
      Desc().attributes[i].offset == ReprC.Offsets(VERTEX_FIELDS, 0)[i]
      && FormatSize(Desc().attributes[i].format) == VERTEX_FIELDS[i].size
  {
    ReprC.WordFieldsUnpadded(VERTEX_FIELDS, 0);
  }

  /** `size_of::<Vertex>()` is 20 bytes: five floats, no padding. */
  lemma StructSize()
    ensures ReprC.SizeOf(VERTEX_FIELDS) == 20
  {
    ReprC.WordStructSize(VERTEX_FIELDS);
    ReprC.WordFieldsEnd(VERTEX_FIELDS, 0);
    ReprC.WordFieldsUnpadded(VERTEX_FIELDS, 0);
  }
}
