/** The constant pentagon the renderer draws: five vertices on a circle of radius 0.5 and three
    triangles fanned from the last vertex. */
module Meshes {
  import opened Base
  import opened Cgmath
  import opened Wgpu
  import opened Vertices

  const VERTICES: seq<Vertex> := [
    Vertex(Vec3(-0.0868241, 0.49240386, 0.0), Vec2(0.4131759, 0.00759614)),
    Vertex(Vec3(-0.49513406, 0.06958647, 0.0), Vec2(0.0048659444, 0.43041354)),
    Vertex(Vec3(-0.21918549, -0.44939706, 0.0), Vec2(0.28081453, 0.949397)),
    Vertex(Vec3(0.35966998, -0.3473291, 0.0), Vec2(0.85967, 0.84732914)),
    Vertex(Vec3(0.44147372, 0.2347359, 0.0), Vec2(0.9414737, 0.2652641))]

  const INDICES: seq<u16> := [0, 1, 4, 1, 2, 4, 2, 3, 4]

  /** The number of triangles of an index list read as a triangle list. */
  function TriangleCount(indices: seq<u16>): nat { |indices| / 3 }

  /** Twice the signed area of the triangle (a, b, c) in the xy plane: positive when the corners
      run counter-clockwise. */
  function SignedArea(a: Vec3, b: Vec3, c: Vec3): real {
    (b.x - a.x) * (c.y - a.y) - (c.x - a.x) * (b.y - a.y)
  }

  /** The signed area of triangle t of the mesh. */
  function TriangleArea(t: nat): real
    requires t < TriangleCount(INDICES)
  {
    SignedArea(VERTICES[INDICES[3 * t]].position, VERTICES[INDICES[3 * t + 1]].position,
      VERTICES[INDICES[3 * t + 2]].position)
  }

  function Abs(r: real): real { if r < 0.0 then -r else r }

  /** Five vertices, nine indices, three whole triangles. */
  lemma Counts()
    ensures |VERTICES| == 5 && |INDICES| == 9
    ensures TriangleCount(INDICES) == 3 && |INDICES| % 3 == 0
  {
  }

  /** Every index names a vertex, every triangle has three different corners, and every vertex is
      a corner of some triangle. */
  lemma IndicesWellFormed()
    ensures forall i :: 0 <= i < |INDICES| ==> INDICES[i] < |VERTICES|
    ensures forall t :: 0 <= t < TriangleCount(INDICES) ==>
      INDICES[3 * t] != INDICES[3 * t + 1] && INDICES[3 * t + 1] != INDICES[3 * t + 2] && INDICES[3 * t] != INDICES[3 * t + 2]
    ensures forall v: u16 :: v < |VERTICES| ==> v in INDICES
  {
    assert INDICES[0] == 0 && INDICES[1] == 1 && INDICES[4] == 2 && INDICES[7] == 3 && INDICES[2] == 4;
  }

  /** The mesh is flat: every vertex has z = 0. */
  lemma Flat()
    ensures forall v :: 0 <= v < |VERTICES| ==> VERTICES[v].position.z == 0.0
  {
  }

  /** Every triangle runs counter-clockwise, so a pipeline with counter-clockwise front faces that
      culls back faces draws all of them. */
  lemma CounterClockwise(p: RenderPipelineDescriptor)
    requires p.frontFace == Ccw && p.cullMode == Some(Back)
    ensures forall t :: 0 <= t < TriangleCount(INDICES) ==> TriangleArea(t) > 0.0 && !Culled(p, TriangleArea(t))
  {
    assert TriangleArea(0) > 0.0;
    assert TriangleArea(1) > 0.0;
    assert TriangleArea(2) > 0.0;
  }

  /** The texture coordinates map the unit disc onto the unit square with v pointing down:
      (u, v) = (x + 0.5, 0.5 - y), to within 1e-7. */
  lemma TexCoordsFollowPositions()
    ensures forall v :: 0 <= v < |VERTICES| ==>
      Abs(VERTICES[v].texCoords.x - (VERTICES[v].position.x + 0.5)) <= 0.0000001
      && Abs(VERTICES[v].texCoords.y - (0.5 - VERTICES[v].position.y)) <= 0.0000001
  {
  }
}
