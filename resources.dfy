/** Turning a parsed OBJ model into GPU meshes and materials: the flat attribute arrays are
    reshaped into vertices, each triangle's tangent and bitangent are solved from its positions and
    texture coordinates and accumulated on its corners, and every vertex then takes the mean over
    the triangles it belongs to. */
module Resources {
  import opened Base
  import opened Cgmath
  import opened Wgpu
  import ReprC
  import Models

  /** A tobj mesh loaded with `triangulate` and `single_index`: three floats per position and
      normal, two per texture coordinate, and one index list shared by all three. */
  datatype ObjMesh = ObjMesh(
    positions: seq<real>,
    texcoords: seq<real>,
    normals: seq<real>,
    indices: seq<u32>,
    materialId: Option<nat>)

  /** The vertex `model_to_mesh` builds: the model vertex plus a tangent frame. */
  datatype MeshVertex = MeshVertex(position: Vec3, texCoords: Vec2, normal: Vec3, tangent: Vec3, biTangent: Vec3)

  /** Its repr(C) fields: five float arrays of 3, 2, 3, 3 and 3. */
  const MESH_VERTEX_FIELDS: seq<ReprC.Field> := [ReprC.F32s(3), ReprC.F32s(2), ReprC.F32s(3), ReprC.F32s(3), ReprC.F32s(3)]

  /** `size_of` of the mesh vertex: fourteen floats, no padding. */
  lemma MeshVertexSize()
    ensures ReprC.SizeOf(MESH_VERTEX_FIELDS) == MESH_VERTEX_SIZE
  {
    MeshVertexEnd();
    assert ReprC.WordFields(MESH_VERTEX_FIELDS);
    ReprC.WordStructSize(MESH_VERTEX_FIELDS);
  }

  /** The last field of the mesh vertex ends at byte 56. */
  lemma MeshVertexEnd()
    ensures ReprC.EndOf(MESH_VERTEX_FIELDS, 0) == 56
  {
    var f := MESH_VERTEX_FIELDS;
    assert ReprC.EndOf(f, 0) == ReprC.EndOf(f[1..], 12);
    assert ReprC.EndOf(f[1..], 12) == ReprC.EndOf(f[2..], 20);
    assert f[2..] == [ReprC.F32s(3), ReprC.F32s(3), ReprC.F32s(3)];
    MeshVertexTangentsEnd();
  }

  /** The normal, tangent and bitangent, laid out from byte 20, end at byte 56. */
  lemma MeshVertexTangentsEnd()
    ensures ReprC.EndOf([ReprC.F32s(3), ReprC.F32s(3), ReprC.F32s(3)], 20) == 56
  {
    var f := [ReprC.F32s(3), ReprC.F32s(3), ReprC.F32s(3)];
    assert ReprC.EndOf(f, 20) == ReprC.EndOf(f[1..], 32);
    assert ReprC.EndOf(f[1..], 32) == ReprC.EndOf(f[2..], 44);
    assert ReprC.EndOf(f[2..], 44) == ReprC.EndOf(f[3..], 56) == 56;
  }

  // ---- Reshaping the flat arrays ----

  /** `positions.len() / 3`. */
  function VertexCount(m: ObjMesh): nat { |m.positions| / 3 }

  /** The texture-coordinate and normal arrays are long enough for every vertex (the indexing in
      `model_to_mesh` panics otherwise). */
  predicate Readable(m: ObjMesh) {
    |m.texcoords| >= 2 * VertexCount(m) && |m.normals| >= 3 * VertexCount(m)
  }

  /** Vertex i: three positions, two texture coordinates and three normal components from the
      flat arrays, and a zero tangent frame. */
  function VertexAt(m: ObjMesh, i: nat): MeshVertex
    requires Readable(m) && i < VertexCount(m)
  {
    MeshVertex(
      Vec3(m.positions[3 * i], m.positions[3 * i + 1], m.positions[3 * i + 2]),
      Vec2(m.texcoords[2 * i], m.texcoords[2 * i + 1]),
      Vec3(m.normals[3 * i], m.normals[3 * i + 1], m.normals[3 * i + 2]),
      ZERO3, ZERO3)
  }

  /** The `(0..positions.len() / 3).map(...).collect()` that starts `model_to_mesh`. */
  function BuildVertices(m: ObjMesh): (vs: seq<MeshVertex>)
    requires Readable(m)
    ensures |vs| == VertexCount(m)
  {
    seq(VertexCount(m), i requires 0 <= i < VertexCount(m) => VertexAt(m, i))
  }

  /** Component k (0, 1 or 2) of a vector. */
  function Component(v: Vec3, k: nat): real
    requires k < 3
  {
    if k == 0 then v.x else if k == 1 then v.y else v.z
  }

  /** The vectors written out one component after another. */
  function Flatten3(vs: seq<Vec3>): (flat: seq<real>)
    ensures |flat| == 3 * |vs|
  {
    seq(3 * |vs|, k requires 0 <= k < 3 * |vs| => Component(vs[k / 3], k % 3))
  }

  function Flatten2(vs: seq<Vec2>): (flat: seq<real>)
    ensures |flat| == 2 * |vs|
  {
    seq(2 * |vs|, k requires 0 <= k < 2 * |vs| => if k % 2 == 0 then vs[k / 2].x else vs[k / 2].y)
  }

  /** Three consecutive floats per vector, for n vectors. */
  function Reshape3(flat: seq<real>, n: nat): (vs: seq<Vec3>)
    requires 3 * n <= |flat|
    ensures |vs| == n
  {
    seq(n, i requires 0 <= i < n => Vec3(flat[3 * i], flat[3 * i + 1], flat[3 * i + 2]))
  }

  /** Two consecutive floats per vector, for n vectors. */
  function Reshape2(flat: seq<real>, n: nat): (vs: seq<Vec2>)
    requires 2 * n <= |flat|
    ensures |vs| == n
  {
    seq(n, i requires 0 <= i < n => Vec2(flat[2 * i], flat[2 * i + 1]))
  }

  /** Flattening undoes reshaping, up to the last whole vector. */
  lemma Reshape3RoundTrip(flat: seq<real>, n: nat)
    requires 3 * n <= |flat|
    ensures Flatten3(Reshape3(flat, n)) == flat[..3 * n]
  {
    var vs := Reshape3(flat, n);
    forall k | 0 <= k < 3 * n ensures Flatten3(vs)[k] == flat[k] {
      assert k == 3 * (k / 3) + k % 3;
    }
  }

  lemma Reshape2RoundTrip(flat: seq<real>, n: nat)
    requires 2 * n <= |flat|
    ensures Flatten2(Reshape2(flat, n)) == flat[..2 * n]
  {
    var vs := Reshape2(flat, n);
    forall k | 0 <= k < 2 * n ensures Flatten2(vs)[k] == flat[k] {
      assert k == 2 * (k / 2) + k % 2;
    }
  }

  /** Reshaping loses nothing: the vertices' positions, texture coordinates and normals are the
      flat arrays reshaped, so flattening them gives the arrays back up to the last whole vertex;
      and every tangent frame starts at zero. */
  lemma BuildVerticesRoundTrip(m: ObjMesh)
    requires Readable(m)
    ensures Flatten3(seq(VertexCount(m), i requires 0 <= i < VertexCount(m) => BuildVertices(m)[i].position))
      == m.positions[..3 * VertexCount(m)]
    ensures Flatten2(seq(VertexCount(m), i requires 0 <= i < VertexCount(m) => BuildVertices(m)[i].texCoords))
      == m.texcoords[..2 * VertexCount(m)]
    ensures Flatten3(seq(VertexCount(m), i requires 0 <= i < VertexCount(m) => BuildVertices(m)[i].normal))
      == m.normals[..3 * VertexCount(m)]
    ensures forall i :: 0 <= i < VertexCount(m) ==> BuildVertices(m)[i].tangent == ZERO3 && BuildVertices(m)[i].biTangent == ZERO3
  {
    PositionsRoundTrip(m);
    TexCoordsRoundTrip(m);
    NormalsRoundTrip(m);
  }

  lemma PositionsRoundTrip(m: ObjMesh)
    requires Readable(m)
    ensures Flatten3(seq(VertexCount(m), i requires 0 <= i < VertexCount(m) => BuildVertices(m)[i].position))
      == m.positions[..3 * VertexCount(m)]
  {
    var n := VertexCount(m);
    var vs := BuildVertices(m);
    assert seq(n, i requires 0 <= i < n => vs[i].position) == Reshape3(m.positions, n);
    Reshape3RoundTrip(m.positions, n);
  }

  lemma TexCoordsRoundTrip(m: ObjMesh)
    requires Readable(m)
    ensures Flatten2(seq(VertexCount(m), i requires 0 <= i < VertexCount(m) => BuildVertices(m)[i].texCoords))
      == m.texcoords[..2 * VertexCount(m)]
  {
    var n := VertexCount(m);
    var vs := BuildVertices(m);
    assert seq(n, i requires 0 <= i < n => vs[i].texCoords) == Reshape2(m.texcoords, n);
    Reshape2RoundTrip(m.texcoords, n);
  }

  lemma NormalsRoundTrip(m: ObjMesh)
    requires Readable(m)
    ensures Flatten3(seq(VertexCount(m), i requires 0 <= i < VertexCount(m) => BuildVertices(m)[i].normal))
      == m.normals[..3 * VertexCount(m)]
  {
    var n := VertexCount(m);
    var vs := BuildVertices(m);
    assert seq(n, i requires 0 <= i < n => vs[i].normal) == Reshape3(m.normals, n);
    Reshape3RoundTrip(m.normals, n);
  }

  // ---- One triangle's tangent frame ----

  /** Tangent and bitangent as `model_to_mesh` stores them (the bitangent negated). */
  datatype Frame = Frame(tangent: Vec3, biTangent: Vec3)

  /** Δuv1.x Δuv2.y − Δuv1.y Δuv2.x: the determinant of the triangle's texture-space edges. */
  function UvDet(uv0: Vec2, uv1: Vec2, uv2: Vec2): real {
    var d1 := Sub2(uv1, uv0);
    var d2 := Sub2(uv2, uv0);
    d1.x * d2.y - d1.y * d2.x
  }

  /** The per-triangle solve of `model_to_mesh`, from the corners' positions and texture
      coordinates. */
  function TriangleFrame(p0: Vec3, p1: Vec3, p2: Vec3, uv0: Vec2, uv1: Vec2, uv2: Vec2): Frame
    requires UvDet(uv0, uv1, uv2) != 0.0
  {
    var dp1 := Sub3(p1, p0);
    var dp2 := Sub3(p2, p0);
    var du1 := Sub2(uv1, uv0);
    var du2 := Sub2(uv2, uv0);
    var r := 1.0 / (du1.x * du2.y - du1.y * du2.x);
    Frame(Scale3(Sub3(Scale3(dp1, du2.y), Scale3(dp2, du1.y)), r),
          Scale3(Sub3(Scale3(dp2, du1.x), Scale3(dp1, du2.x)), -r))
  }

  /** One component of the 2x2 solve: with r the inverse of det = a d − b c, t = (p1 d − p2 b) r
      and u = (p2 a − p1 c) r satisfy p1 = t a + u b and p2 = t c + u d. */
  lemma SolveComponent(p1: real, p2: real, a: real, b: real, c: real, d: real, r: real, t: real, u: real)
    requires r * (a * d - b * c) == 1.0
    requires t == (p1 * d - p2 * b) * r
    requires u == (p2 * a - p1 * c) * r
    ensures p1 == t * a + u * b && p2 == t * c + u * d
  {
    assert t * a + u * b == (a * (p1 * d - p2 * b) + b * (p2 * a - p1 * c)) * r;
    assert a * (p1 * d - p2 * b) + b * (p2 * a - p1 * c) == p1 * (a * d - b * c);
    assert t * c + u * d == (c * (p1 * d - p2 * b) + d * (p2 * a - p1 * c)) * r;
    assert c * (p1 * d - p2 * b) + d * (p2 * a - p1 * c) == p2 * (a * d - b * c);
  }

  /** The same solve for three-component edges. */
  lemma SolveEdges(dp1: Vec3, dp2: Vec3, du1: Vec2, du2: Vec2, r: real, t: Vec3, b: Vec3)
    requires r * (du1.x * du2.y - du1.y * du2.x) == 1.0
    requires t == Scale3(Sub3(Scale3(dp1, du2.y), Scale3(dp2, du1.y)), r)
    requires b == Scale3(Sub3(Scale3(dp2, du1.x), Scale3(dp1, du2.x)), r)
    ensures dp1 == Add3(Scale3(t, du1.x), Scale3(b, du1.y))
    ensures dp2 == Add3(Scale3(t, du2.x), Scale3(b, du2.y))
  {
    SolveComponent(dp1.x, dp2.x, du1.x, du1.y, du2.x, du2.y, r, t.x, b.x);
    SolveComponent(dp1.y, dp2.y, du1.x, du1.y, du2.x, du2.y, r, t.y, b.y);
    SolveComponent(dp1.z, dp2.z, du1.x, du1.y, du2.x, du2.y, r, t.z, b.z);
  }

  /** The frame solves the system of the source's comment: with B the negated stored bitangent,
      Δpos1 = Δuv1.x T + Δuv1.y B and Δpos2 = Δuv2.x T + Δuv2.y B. */
  lemma FrameSolves(p0: Vec3, p1: Vec3, p2: Vec3, uv0: Vec2, uv1: Vec2, uv2: Vec2)
    requires UvDet(uv0, uv1, uv2) != 0.0
    ensures var f := TriangleFrame(p0, p1, p2, uv0, uv1, uv2);
      var b := Scale3(f.biTangent, -1.0);
      var du1 := Sub2(uv1, uv0);
      var du2 := Sub2(uv2, uv0);
      && Sub3(p1, p0) == Add3(Scale3(f.tangent, du1.x), Scale3(b, du1.y))
      && Sub3(p2, p0) == Add3(Scale3(f.tangent, du2.x), Scale3(b, du2.y))
  {
    var r := 1.0 / UvDet(uv0, uv1, uv2);
    assert r * UvDet(uv0, uv1, uv2) == 1.0;
    FrameForm(p0, p1, p2, uv0, uv1, uv2, r);
    var f := TriangleFrame(p0, p1, p2, uv0, uv1, uv2);
    SolveEdges(Sub3(p1, p0), Sub3(p2, p0), Sub2(uv1, uv0), Sub2(uv2, uv0), r, f.tangent, Scale3(f.biTangent, -1.0));
  }

  /** The stored frame is the solve with the inverse determinant r, the bitangent negated. */
  lemma FrameForm(p0: Vec3, p1: Vec3, p2: Vec3, uv0: Vec2, uv1: Vec2, uv2: Vec2, r: real)
    requires UvDet(uv0, uv1, uv2) != 0.0 && r == 1.0 / UvDet(uv0, uv1, uv2)
    ensures var f := TriangleFrame(p0, p1, p2, uv0, uv1, uv2);
      var dp1 := Sub3(p1, p0);
      var dp2 := Sub3(p2, p0);
      var du1 := Sub2(uv1, uv0);
      var du2 := Sub2(uv2, uv0);
      && f.tangent == Scale3(Sub3(Scale3(dp1, du2.y), Scale3(dp2, du1.y)), r)
      && Scale3(f.biTangent, -1.0) == Scale3(Sub3(Scale3(dp2, du1.x), Scale3(dp1, du2.x)), r)
  {
    var bt := Sub3(Scale3(Sub3(p2, p0), Sub2(uv1, uv0).x), Scale3(Sub3(p1, p0), Sub2(uv2, uv0).x));
    assert TriangleFrame(p0, p1, p2, uv0, uv1, uv2).biTangent == Scale3(bt, -r);
    NegatedTwice(bt, r);
  }

  lemma NegatedTwice(v: Vec3, r: real)
    ensures Scale3(Scale3(v, -r), -1.0) == Scale3(v, r)
  {
    assert (v.x * -r) * -1.0 == v.x * r;
    assert (v.y * -r) * -1.0 == v.y * r;
    assert (v.z * -r) * -1.0 == v.z * r;
  }

  // ---- Accumulating over the triangles ----

  /** The index list is a whole number of triangles over existing vertices (a short last chunk
      or an index past the vertices panics in the source), and no triangle is degenerate in
      texture space (there the source divides by zero and gets infinity or NaN). */
  predicate TriangleMesh(vs: seq<MeshVertex>, indices: seq<u32>) {
    && |indices| % 3 == 0
    && (forall j :: 0 <= j < |indices| ==> indices[j] < |vs|)
    && forall t :: 0 <= t < |indices| / 3 ==>
         UvDet(vs[indices[3 * t]].texCoords, vs[indices[3 * t + 1]].texCoords, vs[indices[3 * t + 2]].texCoords) != 0.0
  }

  /** The frame of triangle t. */
  function TriangleFrameOf(vs: seq<MeshVertex>, indices: seq<u32>, t: nat): Frame
    requires TriangleMesh(vs, indices) && t < |indices| / 3
  {
    var v0 := vs[indices[3 * t]];
    var v1 := vs[indices[3 * t + 1]];
    var v2 := vs[indices[3 * t + 2]];
    TriangleFrame(v0.position, v1.position, v2.position, v0.texCoords, v1.texCoords, v2.texCoords)
  }

  /** The sum of the frames of the triangles whose corner is vertex v, over the first s index
      slots; a triangle that names v twice counts twice. */
  function FrameSum(vs: seq<MeshVertex>, indices: seq<u32>, s: nat, v: nat): Frame
    requires TriangleMesh(vs, indices) && s <= |indices|
  {
    if s == 0 then Frame(ZERO3, ZERO3)
    else
      var sum := FrameSum(vs, indices, s - 1, v);
      if indices[s - 1] as nat == v then
        var f := TriangleFrameOf(vs, indices, (s - 1) / 3);
        Frame(Add3(f.tangent, sum.tangent), Add3(f.biTangent, sum.biTangent))
      else sum
  }

  /** The number of index slots among s that name vertex v. */
  function Occurrences(s: seq<u32>, v: nat): nat {
    if s == [] then 0
    else Occurrences(s[..|s| - 1], v) + (if s[|s| - 1] as nat == v then 1 else 0)
  }

  /** Counting slots is the multiplicity of v in the index list. */
  lemma {:induction false} OccurrencesIsMultiplicity(s: seq<u32>, v: u32)
    ensures Occurrences(s, v) == multiset(s)[v]
  {
    if s != [] {
      OccurrencesIsMultiplicity(s[..|s| - 1], v);
      assert s == s[..|s| - 1] + [s[|s| - 1]];
    }
  }

  /** A vertex that no slot names has an empty frame sum. */
  lemma {:induction false} UnusedVertexSum(vs: seq<MeshVertex>, indices: seq<u32>, s: nat, v: nat)
    requires TriangleMesh(vs, indices) && s <= |indices|
    requires Occurrences(indices[..s], v) == 0
    ensures FrameSum(vs, indices, s, v) == Frame(ZERO3, ZERO3)
  {
    if s > 0 {
      assert indices[..s][..s - 1] == indices[..s - 1];
      UnusedVertexSum(vs, indices, s - 1, v);
    }
  }

  /** Vertex v after the triangle loop: its tangent frame plus the frames of its triangles. */
  function Accumulated(vs: seq<MeshVertex>, indices: seq<u32>, s: nat, v: nat): MeshVertex
    requires TriangleMesh(vs, indices) && s <= |indices| && v < |vs|
  {
    var sum := FrameSum(vs, indices, s, v);
    vs[v].(tangent := Add3(sum.tangent, vs[v].tangent), biTangent := Add3(sum.biTangent, vs[v].biTangent))
  }

  /** The slots of triangle t; a slot's frame is its triangle's. */
  lemma FrameSumStep(vs: seq<MeshVertex>, indices: seq<u32>, s: nat, v: nat)
    requires TriangleMesh(vs, indices) && s < |indices|
    ensures var f := TriangleFrameOf(vs, indices, s / 3);
      var sum := FrameSum(vs, indices, s, v);
      FrameSum(vs, indices, s + 1, v) ==
        if indices[s] as nat == v then Frame(Add3(f.tangent, sum.tangent), Add3(f.biTangent, sum.biTangent)) else sum
  {
  }

  // ---- The triangle loop, in place ----

  /** Positions, texture coordinates and normals are those of vs. */
  predicate Kept(a: seq<MeshVertex>, vs: seq<MeshVertex>) {
    |a| == |vs| && forall v :: 0 <= v < |a| ==>
      a[v].position == vs[v].position && a[v].texCoords == vs[v].texCoords && a[v].normal == vs[v].normal
  }

  /** Every tangent is its starting value plus the frame sum over the first s slots. */
  predicate TangentsAt(a: seq<MeshVertex>, vs: seq<MeshVertex>, indices: seq<u32>, s: nat)
    requires TriangleMesh(vs, indices) && s <= |indices|
  {
    |a| == |vs| && forall v :: 0 <= v < |a| ==>
      a[v].tangent == Add3(FrameSum(vs, indices, s, v).tangent, vs[v].tangent)
  }

  predicate BiTangentsAt(a: seq<MeshVertex>, vs: seq<MeshVertex>, indices: seq<u32>, s: nat)
    requires TriangleMesh(vs, indices) && s <= |indices|
  {
    |a| == |vs| && forall v :: 0 <= v < |a| ==>
      a[v].biTangent == Add3(FrameSum(vs, indices, s, v).biTangent, vs[v].biTangent)
  }

  /** Every count is the number of the first s slots naming its vertex. */
  predicate CountsAt(counts: seq<nat>, indices: seq<u32>, s: nat)
    requires s <= |indices|
  {
    forall v :: 0 <= v < |counts| ==> counts[v] == Occurrences(indices[..s], v)
  }

  /** Adding slot s's triangle tangent to the vertex it names advances `TangentsAt` by one slot. */
  lemma AddTangent(a: seq<MeshVertex>, vs: seq<MeshVertex>, indices: seq<u32>, s: nat, f: Frame)
    requires TriangleMesh(vs, indices) && s < |indices| && TangentsAt(a, vs, indices, s)
    requires f == TriangleFrameOf(vs, indices, s / 3)
    ensures var c := indices[s] as nat;
      TangentsAt(a[c := a[c].(tangent := Add3(f.tangent, a[c].tangent))], vs, indices, s + 1)
  {
    forall v | 0 <= v < |a| ensures FrameSum(vs, indices, s + 1, v) ==
      if indices[s] as nat == v then Frame(Add3(f.tangent, FrameSum(vs, indices, s, v).tangent), Add3(f.biTangent, FrameSum(vs, indices, s, v).biTangent))
      else FrameSum(vs, indices, s, v)
    {
      FrameSumStep(vs, indices, s, v);
    }
  }

  lemma AddBiTangent(a: seq<MeshVertex>, vs: seq<MeshVertex>, indices: seq<u32>, s: nat, f: Frame)
    requires TriangleMesh(vs, indices) && s < |indices| && BiTangentsAt(a, vs, indices, s)
    requires f == TriangleFrameOf(vs, indices, s / 3)
    ensures var c := indices[s] as nat;
      BiTangentsAt(a[c := a[c].(biTangent := Add3(f.biTangent, a[c].biTangent))], vs, indices, s + 1)
  {
    forall v | 0 <= v < |a| ensures FrameSum(vs, indices, s + 1, v) ==
      if indices[s] as nat == v then Frame(Add3(f.tangent, FrameSum(vs, indices, s, v).tangent), Add3(f.biTangent, FrameSum(vs, indices, s, v).biTangent))
      else FrameSum(vs, indices, s, v)
    {
      FrameSumStep(vs, indices, s, v);
    }
  }

  /** Incrementing the count of the vertex slot s names advances `CountsAt` by one slot. */
  lemma CountSlot(counts: seq<nat>, indices: seq<u32>, s: nat)
    requires s < |indices| && CountsAt(counts, indices, s) && (indices[s] as nat) < |counts|
    ensures var c := indices[s] as nat;
      CountsAt(counts[c := counts[c] + 1], indices, s + 1)
  {
    assert indices[..s + 1][..s] == indices[..s];
  }

  /** The first three statements of the loop body: the frame's tangent added to each corner in
      turn (a corner named twice gets it twice). */
  method AddTangents(vertices: array<MeshVertex>, ghost vs: seq<MeshVertex>, indices: seq<u32>, t: nat, f: Frame)
    requires TriangleMesh(vs, indices) && t < |indices| / 3
    requires Kept(vertices[..], vs) && TangentsAt(vertices[..], vs, indices, 3 * t)
    requires f == TriangleFrameOf(vs, indices, t)
    modifies vertices
    ensures Kept(vertices[..], vs) && TangentsAt(vertices[..], vs, indices, 3 * t + 3)
    ensures forall v :: 0 <= v < vertices.Length ==> vertices[v].biTangent == old(vertices[v].biTangent)
  {
    var c0, c1, c2 := indices[3 * t] as nat, indices[3 * t + 1] as nat, indices[3 * t + 2] as nat;
    assert (3 * t + 1) / 3 == t && (3 * t + 2) / 3 == t;
    AddTangent(vertices[..], vs, indices, 3 * t, f);
    vertices[c0] := vertices[c0].(tangent := Add3(f.tangent, vertices[c0].tangent));
    AddTangent(vertices[..], vs, indices, 3 * t + 1, f);
    vertices[c1] := vertices[c1].(tangent := Add3(f.tangent, vertices[c1].tangent));
    AddTangent(vertices[..], vs, indices, 3 * t + 2, f);
    vertices[c2] := vertices[c2].(tangent := Add3(f.tangent, vertices[c2].tangent));
  }

  /** The next three: the bitangent added to each corner in turn. */
  method AddBiTangents(vertices: array<MeshVertex>, ghost vs: seq<MeshVertex>, indices: seq<u32>, t: nat, f: Frame)
    requires TriangleMesh(vs, indices) && t < |indices| / 3
    requires Kept(vertices[..], vs) && BiTangentsAt(vertices[..], vs, indices, 3 * t)
    requires f == TriangleFrameOf(vs, indices, t)
    modifies vertices
    ensures Kept(vertices[..], vs) && BiTangentsAt(vertices[..], vs, indices, 3 * t + 3)
    ensures forall v :: 0 <= v < vertices.Length ==> vertices[v].tangent == old(vertices[v].tangent)
  {
    var c0, c1, c2 := indices[3 * t] as nat, indices[3 * t + 1] as nat, indices[3 * t + 2] as nat;
    assert (3 * t + 1) / 3 == t && (3 * t + 2) / 3 == t;
    AddBiTangent(vertices[..], vs, indices, 3 * t, f);
    vertices[c0] := vertices[c0].(biTangent := Add3(f.biTangent, vertices[c0].biTangent));
    AddBiTangent(vertices[..], vs, indices, 3 * t + 1, f);
    vertices[c1] := vertices[c1].(biTangent := Add3(f.biTangent, vertices[c1].biTangent));
    AddBiTangent(vertices[..], vs, indices, 3 * t + 2, f);
    vertices[c2] := vertices[c2].(biTangent := Add3(f.biTangent, vertices[c2].biTangent));
  }

  /** The last three: each corner's count goes up by one. */
  method CountCorners(trianglesIncluded: array<nat>, indices: seq<u32>, t: nat)
    requires t < |indices| / 3 && CountsAt(trianglesIncluded[..], indices, 3 * t)
    requires forall j :: 0 <= j < |indices| ==> (indices[j] as nat) < trianglesIncluded.Length
    modifies trianglesIncluded
    ensures CountsAt(trianglesIncluded[..], indices, 3 * t + 3)
  {
    var c0, c1, c2 := indices[3 * t] as nat, indices[3 * t + 1] as nat, indices[3 * t + 2] as nat;
    CountSlot(trianglesIncluded[..], indices, 3 * t);
    trianglesIncluded[c0] := trianglesIncluded[c0] + 1;
    CountSlot(trianglesIncluded[..], indices, 3 * t + 1);
    trianglesIncluded[c1] := trianglesIncluded[c1] + 1;
    CountSlot(trianglesIncluded[..], indices, 3 * t + 2);
    trianglesIncluded[c2] := trianglesIncluded[c2] + 1;
  }

  /** The `for c in indices.chunks(3)` loop: each triangle's frame, solved from its corners'
      current (never modified) positions and texture coordinates, is added to the tangent and
      then the bitangent of each corner, and each corner's count goes up by one. Afterwards every
      vertex holds its accumulated frame and every count its number of slots. */
  method AccumulateTriangles(vertices: array<MeshVertex>, indices: seq<u32>) returns (trianglesIncluded: array<nat>)
    requires TriangleMesh(vertices[..], indices)
    modifies vertices
    ensures trianglesIncluded.Length == vertices.Length
    ensures forall v :: 0 <= v < vertices.Length ==> vertices[v] == Accumulated(old(vertices[..]), indices, |indices|, v)
    ensures forall v :: 0 <= v < vertices.Length ==> trianglesIncluded[v] == Occurrences(indices, v)
  {
    ghost var vs := vertices[..];
    trianglesIncluded := new nat[vertices.Length](_ => 0);
    var t := 0;
    while t < |indices| / 3
      invariant 0 <= t <= |indices| / 3
      invariant Kept(vertices[..], vs)
      invariant TangentsAt(vertices[..], vs, indices, 3 * t)
      invariant BiTangentsAt(vertices[..], vs, indices, 3 * t)
      invariant trianglesIncluded.Length == vertices.Length
      invariant CountsAt(trianglesIncluded[..], indices, 3 * t)
    {
      var v0, v1, v2 := vertices[indices[3 * t]], vertices[indices[3 * t + 1]], vertices[indices[3 * t + 2]];
      var f := TriangleFrame(v0.position, v1.position, v2.position, v0.texCoords, v1.texCoords, v2.texCoords);
      AddTangents(vertices, vs, indices, t, f);
      AddBiTangents(vertices, vs, indices, t, f);
      CountCorners(trianglesIncluded, indices, t);
      t := t + 1;
    }
    assert indices[..|indices|] == indices;
  }

  // ---- Averaging ----

  /** A vertex's frame divided by the number of triangles that name it; a vertex no triangle
      names keeps its (zero) frame. This is the corrected averaging: see `AveragedAsWritten`. */
  function Averaged(v: MeshVertex, n: nat): MeshVertex {
    if n == 0 then v
    else v.(tangent := Scale3(v.tangent, 1.0 / n as real), biTangent := Scale3(v.biTangent, 1.0 / n as real))
  }

  /** The averaging as written, `1.0 / n as f32` then a scale: for n = 0 the factor is +inf and
      every component of the (zero) frame becomes 0 * inf, which is NaN; `None` stands for that
      vertex. */
  function AveragedAsWritten(v: MeshVertex, n: nat): (r: Option<MeshVertex>)
    ensures n == 0 <==> r.None?
    ensures n > 0 ==> r == Some(Averaged(v, n))
  {
    if n == 0 then None
    else Some(v.(tangent := Scale3(v.tangent, 1.0 / n as real), biTangent := Scale3(v.biTangent, 1.0 / n as real)))
  }

  /** The `for (i, n) in triangles_included.into_iter().enumerate()` loop, in place. */
  method AverageTangents(vertices: array<MeshVertex>, trianglesIncluded: array<nat>)
    requires trianglesIncluded.Length == vertices.Length
    modifies vertices
    ensures forall i :: 0 <= i < vertices.Length ==> vertices[i] == Averaged(old(vertices[i]), trianglesIncluded[i])
  {
    var i := 0;
    while i < vertices.Length
      invariant 0 <= i <= vertices.Length
      invariant forall j :: 0 <= j < i ==> vertices[j] == Averaged(old(vertices[j]), trianglesIncluded[j])
      invariant forall j :: i <= j < vertices.Length ==> vertices[j] == old(vertices[j])
    {
      var n := trianglesIncluded[i];
      if n != 0 {
        var denom := 1.0 / n as real;
        var v := vertices[i];
        vertices[i] := v.(tangent := Scale3(v.tangent, denom), biTangent := Scale3(v.biTangent, denom));
      }
      i := i + 1;
    }
  }

  // ---- model_to_mesh ----

  /** A parsed OBJ model: its name and its mesh. */
  datatype ObjModel = ObjModel(name: string, mesh: ObjMesh)

  /** What the model of `model_to_mesh` needs of the parsed mesh: flat arrays long enough and
      indices in whole triangles over existing vertices, without which the source panics; and no
      triangle degenerate in texture space, where the source's `f32` division yields infinity or
      NaN, which the model does not represent. */
  predicate Convertible(m: ObjMesh) {
    Readable(m) && TriangleMesh(BuildVertices(m), m.indices)
  }

  /** The vertices `model_to_mesh` uploads, vertex by vertex. */
  function FinalVertices(m: ObjMesh): (vs: seq<MeshVertex>)
    requires Convertible(m)
    ensures |vs| == VertexCount(m)
  {
    var built := BuildVertices(m);
    seq(|built|, v requires 0 <= v < |built| => Averaged(Accumulated(built, m.indices, |m.indices|, v), Occurrences(m.indices, v)))
  }

  /** `size_of::<ModelVertex>()` for the mesh vertex, and `size_of::<u32>()`. */
  const MESH_VERTEX_SIZE := 56
  const U32_SIZE := 4

  /** What `model_to_mesh` produces: the mesh record and the two buffers it initializes. */
  datatype MeshBuild = MeshBuild(mesh: Models.Mesh, vertexInit: BufferInit<MeshVertex>, indexInit: BufferInit<u32>)

  /** The mesh record and buffer contents `model_to_mesh` produces for a model. */
  function MeshBuildOf(model: ObjModel, fileName: string, vertexBuffer: BufferId, indexBuffer: BufferId): MeshBuild
    requires Convertible(model.mesh)
  {
    MeshBuild(
      Models.Mesh(fileName, vertexBuffer, indexBuffer, AsU32(|model.mesh.indices|), model.mesh.materialId.GetOr(0)),
      BufferInit(FinalVertices(model.mesh), MESH_VERTEX_SIZE, {VERTEX}),
      BufferInit(model.mesh.indices, U32_SIZE, {INDEX}))
  }

  /** `model_to_mesh(model, file_name, device)`, with the handles the device gives the two new
      buffers as parameters. */
  method ModelToMesh(model: ObjModel, fileName: string, vertexBuffer: BufferId, indexBuffer: BufferId) returns (b: MeshBuild)
    requires Convertible(model.mesh)
    ensures b.vertexInit == BufferInit(FinalVertices(model.mesh), MESH_VERTEX_SIZE, {VERTEX})
    ensures b.indexInit == BufferInit(model.mesh.indices, U32_SIZE, {INDEX})
    ensures b.mesh == Models.Mesh(fileName, vertexBuffer, indexBuffer, AsU32(|model.mesh.indices|), model.mesh.materialId.GetOr(0))
    ensures b == MeshBuildOf(model, fileName, vertexBuffer, indexBuffer)
  {
    var m := model.mesh;
    var built := BuildVertices(m);
    var vertices := new MeshVertex[|built|](i requires 0 <= i < |built| => built[i]);
    assert vertices[..] == built;
    var trianglesIncluded := AccumulateTriangles(vertices, m.indices);
    AverageTangents(vertices, trianglesIncluded);
    assert vertices[..] == FinalVertices(m);
    b := MeshBuild(
      Models.Mesh(fileName, vertexBuffer, indexBuffer, AsU32(|m.indices|), m.materialId.GetOr(0)),
      BufferInit(vertices[..], MESH_VERTEX_SIZE, {VERTEX}),
      BufferInit(m.indices, U32_SIZE, {INDEX}));
  }

  /** Every uploaded vertex keeps the attributes read from the flat arrays; its tangent and
      bitangent are the mean of the frames of the triangles naming it (n times the result is
      their sum), and stay zero when no triangle names it. */
  lemma FinalVertexIsMean(m: ObjMesh, v: nat)
    requires Convertible(m) && v < VertexCount(m)
    ensures var fin := FinalVertices(m)[v];
      var sum := FrameSum(BuildVertices(m), m.indices, |m.indices|, v);
      var n := Occurrences(m.indices, v);
      && fin.position == BuildVertices(m)[v].position
      && fin.texCoords == BuildVertices(m)[v].texCoords
      && fin.normal == BuildVertices(m)[v].normal
      && (n > 0 ==> Scale3(fin.tangent, n as real) == sum.tangent && Scale3(fin.biTangent, n as real) == sum.biTangent)
      && (n == 0 ==> fin.tangent == ZERO3 && fin.biTangent == ZERO3)
  {
    var built := BuildVertices(m);
    var sum := FrameSum(built, m.indices, |m.indices|, v);
    var n := Occurrences(m.indices, v);
    var acc := Accumulated(built, m.indices, |m.indices|, v);
    assert acc.tangent == sum.tangent && acc.biTangent == sum.biTangent;
    if n > 0 {
      MeanScalesBack(sum.tangent, n);
      MeanScalesBack(sum.biTangent, n);
    } else {
      assert m.indices[..|m.indices|] == m.indices;
      UnusedVertexSum(built, m.indices, |m.indices|, v);
    }
  }

  /** Dividing by n and multiplying by n gives the vector back. */
  lemma MeanScalesBack(w: Vec3, n: nat)
    requires n > 0
    ensures Scale3(Scale3(w, 1.0 / n as real), n as real) == w
  {
    var k := 1.0 / n as real;
    assert k * n as real == 1.0;
    assert (w.x * k) * n as real == w.x * (k * n as real);
    assert (w.y * k) * n as real == w.y * (k * n as real);
    assert (w.z * k) * n as real == w.z * (k * n as real);
  }

  /** A mesh of one vertex and no faces: no triangle names vertex 0. */
  const UNUSED_VERTEX_MESH := ObjMesh([1.0, 2.0, 3.0], [0.5, 0.5], [0.0, 0.0, 1.0], [], None)

  /** On that mesh the averaging as written divides vertex 0's zero frame by zero: its tangent
      and bitangent come out NaN, where the corrected averaging leaves them zero. */
  lemma UnusedVertexGetsNaN()
    ensures Convertible(UNUSED_VERTEX_MESH) && VertexCount(UNUSED_VERTEX_MESH) == 1
    ensures Occurrences(UNUSED_VERTEX_MESH.indices, 0) == 0
    ensures AveragedAsWritten(Accumulated(BuildVertices(UNUSED_VERTEX_MESH), [], 0, 0), 0).None?
    ensures FinalVertices(UNUSED_VERTEX_MESH)[0].tangent == ZERO3
  {
    var m := UNUSED_VERTEX_MESH;
    assert VertexCount(m) == 1;
    assert Convertible(m);
    assert Occurrences(m.indices, 0) == 0;
    FinalVertexIsMean(m, 0);
  }

  // ---- Materials ----

  /** The tobj material fields `model_to_material` reads: a name and two texture file names. */
  datatype ObjMaterial = ObjMaterial(name: string, diffuseTexture: string, normalTexture: string)

  /** The material `model_to_material` builds. */
  datatype Material = Material(name: string, diffuseTexture: Texture, normalTexture: Texture, bindGroup: BindGroupId)

  /** The bind group's entries: diffuse view, diffuse sampler, normal view, normal sampler at
      bindings 0..3. */
  function MaterialEntries(diffuse: Texture, normal: Texture): (entries: seq<BindGroupEntry>)
    ensures |entries| == 4
    ensures forall i :: 0 <= i < 4 ==> entries[i].binding == i
    ensures entries[0].resource.TextureView? && entries[2].resource.TextureView?
    ensures entries[1].resource.Sampler? && entries[3].resource.Sampler?
  {
    [BindGroupEntry(0, TextureView(diffuse.view)), BindGroupEntry(1, Sampler(diffuse.sampler)),
     BindGroupEntry(2, TextureView(normal.view)), BindGroupEntry(3, Sampler(normal.sampler))]
  }

  /** Bindings 0 and 1 carry the diffuse texture, 2 and 3 the normal map, and nothing else:
      the view and sampler of each texture can be read back from its pair of entries. */
  lemma EntriesPairTextures(diffuse: Texture, normal: Texture)
    ensures var e := MaterialEntries(diffuse, normal);
      && e[0].resource.view == diffuse.view && e[1].resource.sampler == diffuse.sampler
      && e[2].resource.view == normal.view && e[3].resource.sampler == normal.sampler
    ensures forall d: Texture, n: Texture :: MaterialEntries(d, n) == MaterialEntries(diffuse, normal) ==>
      d.view == diffuse.view && d.sampler == diffuse.sampler && n.view == normal.view && n.sampler == normal.sampler
  {
  }

  /** `model_to_material`: the diffuse texture is loaded first and its error returned before the
      normal map is tried; then the bind group is created over the four entries. Texture loading
      (file read and image decoding) and bind-group creation are parameters. */
  function ModelToMaterial(mat: ObjMaterial, loadTexture: string -> Result<Texture, string>,
                           createBindGroup: seq<BindGroupEntry> -> BindGroupId): (r: Result<Material, string>)
    ensures loadTexture(mat.diffuseTexture).Err? ==> r == Err(loadTexture(mat.diffuseTexture).error)
    ensures loadTexture(mat.diffuseTexture).Ok? && loadTexture(mat.normalTexture).Err? ==>
      r == Err(loadTexture(mat.normalTexture).error)
    ensures r.Ok? <==> loadTexture(mat.diffuseTexture).Ok? && loadTexture(mat.normalTexture).Ok?
    ensures r.Ok? ==>
      && r.value.name == mat.name
      && r.value.diffuseTexture == loadTexture(mat.diffuseTexture).value
      && r.value.normalTexture == loadTexture(mat.normalTexture).value
      && r.value.bindGroup == createBindGroup(MaterialEntries(r.value.diffuseTexture, r.value.normalTexture))
  {
    match loadTexture(mat.diffuseTexture)
    case Err(e) => Err(e)
    case Ok(diffuse) =>
      match loadTexture(mat.normalTexture)
      case Err(e) => Err(e)
      case Ok(normal) =>
        Ok(Material(mat.name, diffuse, normal, createBindGroup(MaterialEntries(diffuse, normal))))
  }

  // ---- load_model ----

  /** What the OBJ parser hands back: the models, and the result of loading the MTL library. */
  datatype ObjFile = ObjFile(models: seq<ObjModel>, materials: Result<seq<ObjMaterial>, string>)

  datatype Model = Model(meshes: seq<Models.Mesh>, materials: seq<Material>)

  /** The materials in file order, or the first error. */
  function MaterialsOf(mats: seq<ObjMaterial>, loadTexture: string -> Result<Texture, string>,
                       createBindGroup: seq<BindGroupEntry> -> BindGroupId): Result<seq<Material>, string>
  {
    if mats == [] then Ok([])
    else
      match ModelToMaterial(mats[0], loadTexture, createBindGroup)
      case Err(e) => Err(e)
      case Ok(first) =>
        match MaterialsOf(mats[1..], loadTexture, createBindGroup)
        case Err(e) => Err(e)
        case Ok(rest) => Ok([first] + rest)
  }

  /** Material i is the first whose conversion fails, with error e. */
  predicate FirstFailure(mats: seq<ObjMaterial>, i: int, loadTexture: string -> Result<Texture, string>,
                         createBindGroup: seq<BindGroupEntry> -> BindGroupId, e: string)
  {
    && 0 <= i < |mats|
    && (forall j :: 0 <= j < i ==> ModelToMaterial(mats[j], loadTexture, createBindGroup).Ok?)
    && ModelToMaterial(mats[i], loadTexture, createBindGroup) == Err(e)
  }

  /** When every material loads, material i is built from the i-th parsed material; otherwise
      the error is that of the first material that fails. */
  lemma {:induction false} MaterialsInOrder(mats: seq<ObjMaterial>, loadTexture: string -> Result<Texture, string>,
                                            createBindGroup: seq<BindGroupEntry> -> BindGroupId)
    ensures var r := MaterialsOf(mats, loadTexture, createBindGroup);
      && (r.Ok? <==> forall i :: 0 <= i < |mats| ==> ModelToMaterial(mats[i], loadTexture, createBindGroup).Ok?)
      && (r.Ok? ==> |r.value| == |mats| && forall i :: 0 <= i < |mats| ==>
            Ok(r.value[i]) == ModelToMaterial(mats[i], loadTexture, createBindGroup))
      && (r.Err? ==> exists i :: FirstFailure(mats, i, loadTexture, createBindGroup, r.error))
  {
    if mats != [] {
      MaterialsInOrder(mats[1..], loadTexture, createBindGroup);
      var r := MaterialsOf(mats, loadTexture, createBindGroup);
      var rest := MaterialsOf(mats[1..], loadTexture, createBindGroup);
      forall i | 1 <= i < |mats| ensures mats[i] == mats[1..][i - 1] { }
      if ModelToMaterial(mats[0], loadTexture, createBindGroup).Err? {
        assert FirstFailure(mats, 0, loadTexture, createBindGroup, r.error);
      } else if rest.Err? {
        var k :| FirstFailure(mats[1..], k, loadTexture, createBindGroup, rest.error);
        assert FirstFailure(mats, k + 1, loadTexture, createBindGroup, r.error);
      }
    }
  }

  /** The `for material in obj_materials?` loop: the materials converted in file order, stopping
      at the first failure. */
  method ConvertMaterials(objMaterials: seq<ObjMaterial>, loadTexture: string -> Result<Texture, string>,
                          createBindGroup: seq<BindGroupEntry> -> BindGroupId)
    returns (r: Result<seq<Material>, string>)
    ensures r == MaterialsOf(objMaterials, loadTexture, createBindGroup)
  {
    var materials: seq<Material> := [];
    var i := 0;
    assert objMaterials[0..] == objMaterials;
    match MaterialsOf(objMaterials, loadTexture, createBindGroup) {
      case Err(_) =>
      case Ok(all) => assert all == materials + all;
    }
    while i < |objMaterials|
      invariant 0 <= i <= |objMaterials|
      invariant MaterialsOf(objMaterials, loadTexture, createBindGroup) ==
        match MaterialsOf(objMaterials[i..], loadTexture, createBindGroup)
        case Err(e) => Err(e)
        case Ok(rest) => Ok(materials + rest)
    {
      var material := ModelToMaterial(objMaterials[i], loadTexture, createBindGroup);
      assert objMaterials[i..][1..] == objMaterials[i + 1..];
      if material.Err? {
        assert MaterialsOf(objMaterials[i..], loadTexture, createBindGroup) == Err(material.error);
        return Err(material.error);
      }
      match MaterialsOf(objMaterials[i + 1..], loadTexture, createBindGroup) {
        case Err(_) =>
        case Ok(rest) => assert materials + ([material.value] + rest) == (materials + [material.value]) + rest;
      }
      materials := materials + [material.value];
      i := i + 1;
    }
    assert objMaterials[i..] == [] && materials + [] == materials;
    r := Ok(materials);
  }

  /** The `models.into_iter().map(model_to_mesh).collect()`: one mesh per parsed model, in order;
      model k's buffers are `buffersFor(k)`. */
  method BuildMeshes(models: seq<ObjModel>, fileName: string, buffersFor: nat -> (BufferId, BufferId))
    returns (builds: seq<MeshBuild>)
    requires forall k :: 0 <= k < |models| ==> Convertible(models[k].mesh)
    ensures |builds| == |models|
    ensures forall k :: 0 <= k < |models| ==> builds[k] == MeshBuildOf(models[k], fileName, buffersFor(k).0, buffersFor(k).1)
  {
    builds := [];
    var k := 0;
    while k < |models|
      invariant 0 <= k <= |models|
      invariant |builds| == k
      invariant forall j :: 0 <= j < k ==> builds[j] == MeshBuildOf(models[j], fileName, buffersFor(j).0, buffersFor(j).1)
    {
      var b := ModelToMesh(models[k], fileName, buffersFor(k).0, buffersFor(k).1);
      builds := builds + [b];
      k := k + 1;
    }
  }

  /** The meshes of the builds, in order. */
  function MeshesOf(builds: seq<MeshBuild>): (meshes: seq<Models.Mesh>)
    ensures |meshes| == |builds|
    ensures forall k :: 0 <= k < |builds| ==> meshes[k] == builds[k].mesh
  {
    seq(|builds|, k requires 0 <= k < |builds| => builds[k].mesh)
  }

  /** `load_model` once the file is read and parsed: a parse error is returned; then the MTL
      library's error; then the materials are converted in file order, the first failure
      returned; only then is one mesh built per parsed model, in order. The buffer handles the
      device gives model k's mesh are `buffersFor(k)`. */
  method LoadModel(parsed: Result<ObjFile, string>, fileName: string,
                   loadTexture: string -> Result<Texture, string>,
                   createBindGroup: seq<BindGroupEntry> -> BindGroupId,
                   buffersFor: nat -> (BufferId, BufferId))
    returns (r: Result<Model, string>, builds: seq<MeshBuild>)
    requires (parsed.Ok? && parsed.value.materials.Ok?
              && MaterialsOf(parsed.value.materials.value, loadTexture, createBindGroup).Ok?) ==>
      forall k :: 0 <= k < |parsed.value.models| ==> Convertible(parsed.value.models[k].mesh)
    ensures parsed.Err? ==> r == Err(parsed.error) && builds == []
    ensures parsed.Ok? && parsed.value.materials.Err? ==> r == Err(parsed.value.materials.error) && builds == []
    ensures parsed.Ok? && parsed.value.materials.Ok? ==>
      var mats := MaterialsOf(parsed.value.materials.value, loadTexture, createBindGroup);
      && (mats.Err? ==> r == Err(mats.error) && builds == [])
      && (mats.Ok? ==> r.Ok? && r.value.materials == mats.value)
    ensures r.Ok? ==>
      var models := parsed.value.models;
      && |builds| == |models| == |r.value.meshes|
      && forall k :: 0 <= k < |models| ==>
           builds[k] == MeshBuildOf(models[k], fileName, buffersFor(k).0, buffersFor(k).1)
           && r.value.meshes[k] == builds[k].mesh
  {
    builds := [];
    if parsed.Err? {
      return Err(parsed.error), builds;
    }
    var file := parsed.value;
    if file.materials.Err? {
      return Err(file.materials.error), builds;
    }
    var materials := ConvertMaterials(file.materials.value, loadTexture, createBindGroup);
    if materials.Err? {
      return Err(materials.error), builds;
    }
    builds := BuildMeshes(file.models, fileName, buffersFor);
    r := Ok(Model(MeshesOf(builds), materials.value));
  }
}
