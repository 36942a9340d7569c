/** The coloured mesh on the GPU: a vertex buffer, a 16-bit index buffer and the index count the
    draw call uses. */
module Geometries {
  import opened Base
  import opened Wgpu
  import ReprC
  import Vertices

  datatype Geometry = Geometry(numIndices: u32, indexBuffer: BufferId, vertexBuffer: BufferId)

  /** What `Geometry::new` asks the device for, and the geometry it returns. */
  datatype GeometryBuild = GeometryBuild(
    geometry: Geometry,
    vertexInit: BufferInit<Vertices.Vertex>,
    indexInit: BufferInit<u16>)

  /** Byte size of a `u16`. */
  const U16_SIZE: nat := 2

  /** `Geometry::new`: one immutable buffer holding the vertices, one holding the indices, and the
      index count truncated to `u32` by `as u32`. The device's answers (the two buffer handles)
      are parameters. */
  function New(vertices: seq<Vertices.Vertex>, indices: seq<u16>, vertexBuffer: BufferId, indexBuffer: BufferId): (b: GeometryBuild)
    ensures b.vertexInit.contents == vertices && b.vertexInit.ByteSize() == 20 * |vertices|
    ensures b.indexInit.contents == indices && b.indexInit.ByteSize() == 2 * |indices|
    ensures b.vertexInit.usage == {VERTEX} && b.indexInit.usage == {INDEX}
    ensures BufferUsage.COPY_DST !in b.vertexInit.usage && BufferUsage.COPY_DST !in b.indexInit.usage
    ensures |indices| < U32_MODULUS ==> b.geometry.numIndices == |indices|
    ensures b.geometry.numIndices == |indices| % U32_MODULUS
    ensures b.geometry.vertexBuffer == vertexBuffer && b.geometry.indexBuffer == indexBuffer
  {
    Vertices.StructSize();
    var vertexInit := BufferInit(vertices, ReprC.SizeOf(Vertices.VERTEX_FIELDS), {VERTEX});
    var indexInit := BufferInit(indices, U16_SIZE, {INDEX});
    GeometryBuild(Geometry(AsU32(|indices|), indexBuffer, vertexBuffer), vertexInit, indexInit)
  }
}
