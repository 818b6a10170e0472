/** The triangle meshes the renderer uploads (src/engine/render/mesh.rs;
    src/engine/renderer/mesh.rs is an older copy of its first hundred lines
    with the same `index_count`, `generate_normals` and `cube`).  A mesh is
    a list of vertices (position and normal, both the cleaning `Vec3`) and
    a list of `u16` indices read three at a time as triangles. */
module RenderMesh {
  import opened Numeric
  import opened CorePrimitives

  datatype Vertex = Vertex(position: Vec3, normal: Vec3)

  /** Corner c of triangle t. */
  function Corner(indices: seq<u16>, t: nat, c: nat): nat
    requires c < 3 && 3 * t + c < |indices|
  {
    indices[3 * t + c] as nat
  }

  /** What `generate_normals` needs to run without panicking: the indices
      come in whole triples (a shorter last chunk has no `triangle[2]`) and
      every index names a vertex. */
  predicate ValidTriangles(vertexCount: nat, indices: seq<u16>) {
    |indices| % 3 == 0 && forall k :: 0 <= k < |indices| ==> indices[k] as nat < vertexCount
  }

  /** The positions of the vertices, in order. */
  function Positions(vs: seq<Vertex>): (r: seq<Vec3>)
    ensures |r| == |vs| && forall i :: 0 <= i < |vs| ==> r[i] == vs[i].position
  {
    seq(|vs|, i requires 0 <= i < |vs| => vs[i].position)
  }

  predicate SamePositions(a: seq<Vertex>, b: seq<Vertex>) {
    Positions(a) == Positions(b)
  }

  /** The unit normal of triangle t: (v1 - v0) x (v2 - v0), normalized. */
  function FaceNormal(vs: seq<Vertex>, indices: seq<u16>, t: nat, lib: Libm): Vec3
    requires ValidTriangles(|vs|, indices) && t < |indices| / 3
  {
    var v0 := vs[Corner(indices, t, 0)].position;
    var v1 := vs[Corner(indices, t, 1)].position;
    var v2 := vs[Corner(indices, t, 2)].position;
    v1.Sub(v0).Cross(v2.Sub(v0)).Normalize(lib)
  }

  /** The face normal reads only positions. */
  lemma FaceNormalReadsPositions(a: seq<Vertex>, b: seq<Vertex>, indices: seq<u16>, t: nat, lib: Libm)
    requires SamePositions(a, b) && ValidTriangles(|a|, indices) && t < |indices| / 3
    ensures FaceNormal(a, indices, t, lib) == FaceNormal(b, indices, t, lib)
  {
  }

  /** The face normals of all triangles, in index order. */
  function FaceNormals(vs: seq<Vertex>, indices: seq<u16>, lib: Libm): (r: seq<Vec3>)
    requires ValidTriangles(|vs|, indices)
    ensures |r| == |indices| / 3
    ensures forall t :: 0 <= t < |r| ==> r[t] == FaceNormal(vs, indices, t, lib)
  {
    seq(|indices| / 3, t requires 0 <= t < |indices| / 3 => FaceNormal(vs, indices, t, lib))
  }

  function AddToNormal(vs: seq<Vertex>, i: nat, n: Vec3): (r: seq<Vertex>)
    requires i < |vs|
    ensures |r| == |vs|
  {
    vs[i := Vertex(vs[i].position, vs[i].normal.Add(n))]
  }

  /** One pass of the middle loop of `generate_normals`: the face normal n
      of triangle t is added to the normal of each of its three corners. */
  function AccumulateFace(vs: seq<Vertex>, indices: seq<u16>, t: nat, n: Vec3): (r: seq<Vertex>)
    requires ValidTriangles(|vs|, indices) && t < |indices| / 3
    ensures |r| == |vs|
  {
    var a := AddToNormal(vs, Corner(indices, t, 0), n);
    var b := AddToNormal(a, Corner(indices, t, 1), n);
    AddToNormal(b, Corner(indices, t, 2), n)
  }

  /** The vertices after the face normals of the first t triangles have
      been accumulated. */
  function Accumulated(vs: seq<Vertex>, indices: seq<u16>, normals: seq<Vec3>, t: nat): (r: seq<Vertex>)
    requires ValidTriangles(|vs|, indices) && |normals| == |indices| / 3 && t <= |normals|
    ensures |r| == |vs|
  {
    if t == 0 then vs
    else AccumulateFace(Accumulated(vs, indices, normals, t - 1), indices, t - 1, normals[t - 1])
  }

  /** Accumulation changes normals only. */
  lemma {:induction false} AccumulatedKeepsPositions(vs: seq<Vertex>, indices: seq<u16>, normals: seq<Vec3>, t: nat)
    requires ValidTriangles(|vs|, indices) && |normals| == |indices| / 3 && t <= |normals|
    ensures SamePositions(Accumulated(vs, indices, normals, t), vs)
  {
    if t > 0 {
      AccumulatedKeepsPositions(vs, indices, normals, t - 1);
      var before := Accumulated(vs, indices, normals, t - 1);
      AccumulateFaceKeepsPositions(before, indices, t - 1, normals[t - 1]);
      assert Accumulated(vs, indices, normals, t) == AccumulateFace(before, indices, t - 1, normals[t - 1]);
    }
  }

  lemma AccumulateFaceKeepsPositions(vs: seq<Vertex>, indices: seq<u16>, t: nat, n: Vec3)
    requires ValidTriangles(|vs|, indices) && t < |indices| / 3
    ensures SamePositions(AccumulateFace(vs, indices, t, n), vs)
  {
    var a := AddToNormal(vs, Corner(indices, t, 0), n);
    var b := AddToNormal(a, Corner(indices, t, 1), n);
    AddToNormalKeepsPositions(vs, Corner(indices, t, 0), n);
    AddToNormalKeepsPositions(a, Corner(indices, t, 1), n);
    AddToNormalKeepsPositions(b, Corner(indices, t, 2), n);
  }

  lemma AddToNormalKeepsPositions(vs: seq<Vertex>, i: nat, n: Vec3)
    requires i < |vs|
    ensures SamePositions(AddToNormal(vs, i, n), vs)
  {
    var r := AddToNormal(vs, i, n);
    assert forall j :: 0 <= j < |r| ==> Positions(r)[j] == Positions(vs)[j];
  }

  function ZeroNormals(vs: seq<Vertex>): (r: seq<Vertex>)
    ensures |r| == |vs| && SamePositions(r, vs)
    ensures forall i :: 0 <= i < |r| ==> r[i].normal == Vec3.ZERO
  {
    seq(|vs|, i requires 0 <= i < |vs| => Vertex(vs[i].position, Vec3.ZERO))
  }

  function NormalizeNormals(vs: seq<Vertex>, lib: Libm): (r: seq<Vertex>)
    ensures |r| == |vs| && SamePositions(r, vs)
    ensures forall i :: 0 <= i < |r| ==> r[i].normal == vs[i].normal.Normalize(lib)
  {
    seq(|vs|, i requires 0 <= i < |vs| => Vertex(vs[i].position, vs[i].normal.Normalize(lib)))
  }

  /** What `generate_normals` leaves in `vertices`: the zeroed normals,
      accumulated over every triangle, then normalized. */
  function SmoothNormals(vs: seq<Vertex>, indices: seq<u16>, lib: Libm): (r: seq<Vertex>)
    requires ValidTriangles(|vs|, indices)
    ensures |r| == |vs|
  {
    NormalizeNormals(Accumulated(ZeroNormals(vs), indices, FaceNormals(vs, indices, lib), |indices| / 3), lib)
  }

  /** The normal n added once for each corner of triangle t that names v. */
  function AddAtCorners(s: Vec3, n: Vec3, indices: seq<u16>, t: nat, v: nat): Vec3
    requires 3 * t + 2 < |indices|
  {
    var s0 := if Corner(indices, t, 0) == v then s.Add(n) else s;
    var s1 := if Corner(indices, t, 1) == v then s0.Add(n) else s0;
    if Corner(indices, t, 2) == v then s1.Add(n) else s1
  }

  /** The per-vertex reading of the accumulation: the sum vertex v collects
      from the first t triangles, one (cleaning) addition of the face normal
      for every corner of a triangle that names v, in index order. */
  function CornerSum(indices: seq<u16>, normals: seq<Vec3>, v: nat, t: nat): Vec3
    requires |indices| % 3 == 0 && |normals| == |indices| / 3 && t <= |normals|
  {
    if t == 0 then Vec3.ZERO
    else AddAtCorners(CornerSum(indices, normals, v, t - 1), normals[t - 1], indices, t - 1, v)
  }

  /** One triangle's accumulation, seen from vertex v. */
  lemma AccumulateFaceAt(vs: seq<Vertex>, indices: seq<u16>, t: nat, n: Vec3, v: nat, s: Vec3)
    requires ValidTriangles(|vs|, indices) && t < |indices| / 3 && v < |vs| && vs[v].normal == s
    ensures AccumulateFace(vs, indices, t, n)[v].normal == AddAtCorners(s, n, indices, t, v)
  {
  }

  /** The triangle-by-triangle loop and the per-vertex sum agree: after t
      triangles, vertex v holds exactly the sum of the face normals of the
      corners that name it. */
  lemma {:induction false} AccumulatedIsCornerSum(vs: seq<Vertex>, indices: seq<u16>, normals: seq<Vec3>, t: nat, v: nat)
    requires ValidTriangles(|vs|, indices) && |normals| == |indices| / 3 && t <= |normals| && v < |vs|
    ensures Accumulated(ZeroNormals(vs), indices, normals, t)[v].normal == CornerSum(indices, normals, v, t)
  {
    var zs := ZeroNormals(vs);
    if t > 0 {
      AccumulatedIsCornerSum(vs, indices, normals, t - 1, v);
      var before := Accumulated(zs, indices, normals, t - 1);
      var s := CornerSum(indices, normals, v, t - 1);
      var n := normals[t - 1];
      assert |before| == |vs| && before[v].normal == s;
      AccumulateFaceAt(before, indices, t - 1, n, v, s);
      assert CornerSum(indices, normals, v, t) == AddAtCorners(s, n, indices, t - 1, v);
      assert Accumulated(zs, indices, normals, t) == AccumulateFace(before, indices, t - 1, n);
    } else {
      assert zs[v].normal == Vec3.ZERO;
    }
  }

  /** A vertex that no corner names never receives a face normal. */
  lemma {:induction false} CornerSumOfUnreferenced(indices: seq<u16>, normals: seq<Vec3>, v: nat, t: nat)
    requires |indices| % 3 == 0 && |normals| == |indices| / 3 && t <= |normals|
    requires forall k :: 0 <= k < |indices| ==> indices[k] as nat != v
    ensures CornerSum(indices, normals, v, t) == Vec3.ZERO
  {
    if t > 0 {
      CornerSumOfUnreferenced(indices, normals, v, t - 1);
      assert Corner(indices, t - 1, 0) != v && Corner(indices, t - 1, 1) != v && Corner(indices, t - 1, 2) != v;
    }
  }

  /** After `generate_normals`, positions are unchanged, every normal is the
      normalized corner sum of its vertex over the face normals, and a
      vertex no triangle uses has the zero normal. */
  lemma SmoothNormalsFacts(vs: seq<Vertex>, indices: seq<u16>, lib: Libm)
    requires ValidTriangles(|vs|, indices)
    ensures SamePositions(SmoothNormals(vs, indices, lib), vs)
    ensures forall v :: 0 <= v < |vs| ==>
      SmoothNormals(vs, indices, lib)[v].normal == CornerSum(indices, FaceNormals(vs, indices, lib), v, |indices| / 3).Normalize(lib)
    ensures forall v :: 0 <= v < |vs| && (forall k :: 0 <= k < |indices| ==> indices[k] as nat != v) ==>
      SmoothNormals(vs, indices, lib)[v].normal == Vec3.ZERO
  {
    var normals := FaceNormals(vs, indices, lib);
    AccumulatedKeepsPositions(ZeroNormals(vs), indices, normals, |indices| / 3);
    forall v | 0 <= v < |vs|
      ensures SmoothNormals(vs, indices, lib)[v].normal == CornerSum(indices, normals, v, |indices| / 3).Normalize(lib)
    {
      AccumulatedIsCornerSum(vs, indices, normals, |indices| / 3, v);
    }
    forall v | 0 <= v < |vs| && (forall k :: 0 <= k < |indices| ==> indices[k] as nat != v)
      ensures SmoothNormals(vs, indices, lib)[v].normal == Vec3.ZERO
    {
      CornerSumOfUnreferenced(indices, normals, v, |indices| / 3);
    }
  }

  /** Three indices read as one triangle. */
  datatype Tri = Tri(a: u16, b: u16, c: u16) {
    predicate Below(count: nat) {
      a as nat < count && b as nat < count && c as nat < count
    }

    /** The directed edge p -> q is one of the triangle's three sides, taken
        in winding order. */
    predicate HasEdge(p: u16, q: u16) {
      (a == p && b == q) || (b == p && c == q) || (c == p && a == q)
    }
  }

  /** The index buffer of a list of triangles, three indices per triangle. */
  function TriangleIndices(tris: seq<Tri>): (r: seq<u16>)
    ensures |r| == 3 * |tris|
  {
    if tris == [] then []
    else
      var last := tris[|tris| - 1];
      TriangleIndices(tris[..|tris| - 1]) + [last.a, last.b, last.c]
  }

  /** Index 3t+c of the buffer is corner c of triangle t. */
  lemma {:induction false} TriangleIndicesAt(tris: seq<Tri>, t: nat)
    requires t < |tris|
    ensures TriangleIndices(tris)[3 * t] == tris[t].a
    ensures TriangleIndices(tris)[3 * t + 1] == tris[t].b
    ensures TriangleIndices(tris)[3 * t + 2] == tris[t].c
  {
    if t < |tris| - 1 {
      TriangleIndicesAt(tris[..|tris| - 1], t);
    }
  }

  /** Appending a triangle appends its three indices. */
  lemma TriangleIndicesSnoc(tris: seq<Tri>, k: nat)
    requires k < |tris|
    ensures TriangleIndices(tris[..k + 1]) == TriangleIndices(tris[..k]) + [tris[k].a, tris[k].b, tris[k].c]
  {
    assert tris[..k + 1][..k] == tris[..k];
  }

  /** Triangles whose corners all name existing vertices make an index
      buffer `generate_normals` accepts. */
  lemma {:induction false} TrianglesAreValid(tris: seq<Tri>, count: nat)
    requires forall t :: 0 <= t < |tris| ==> tris[t].Below(count)
    ensures ValidTriangles(count, TriangleIndices(tris))
  {
    if tris != [] {
      var init, last := tris[..|tris| - 1], tris[|tris| - 1];
      assert forall t :: 0 <= t < |init| ==> init[t] == tris[t];
      TrianglesAreValid(init, count);
      assert last.Below(count);
      var r, front := TriangleIndices(tris), TriangleIndices(init);
      assert r == front + [last.a, last.b, last.c];
      forall k | 0 <= k < |r|
        ensures r[k] as nat < count
      {
        if k < |front| {
          assert r[k] == front[k];
        }
      }
    }
  }

  /** A surface is closed and consistently wound when every directed edge
      of every triangle is walked the other way by some other triangle. */
  predicate ClosedSurface(tris: seq<Tri>) {
    forall t, p, q :: 0 <= t < |tris| && tris[t].HasEdge(p, q) ==>
      exists s :: 0 <= s < |tris| && s != t && tris[s].HasEdge(q, p)
  }

  // ---------------------------------------------------------------- cube

  /** A point given in half-units. */
  function Half(p: (int, int, int)): Vec3 {
    Vec3(p.0 as real * 0.5, p.1 as real * 0.5, p.2 as real * 0.5)
  }

  function Minus(p: (int, int, int), q: (int, int, int)): (int, int, int) {
    (p.0 - q.0, p.1 - q.1, p.2 - q.2)
  }

  function IntCross(p: (int, int, int), q: (int, int, int)): (int, int, int) {
    (p.1 * q.2 - p.2 * q.1, p.2 * q.0 - p.0 * q.2, p.0 * q.1 - p.1 * q.0)
  }

  /** Cleaning leaves multiples of one half alone. */
  lemma CleanHalves(p: (int, int, int))
    ensures Vec3.New(p.0 as real * 0.5, p.1 as real * 0.5, p.2 as real * 0.5) == Half(p)
  {
    RoundInteger(p.0 * 500);
    RoundInteger(p.1 * 500);
    RoundInteger(p.2 * 500);
  }

  /** The cleaning difference of two points given in half-units. */
  lemma SubOfHalves(p: (int, int, int), q: (int, int, int))
    ensures Half(p).Sub(Half(q)) == Half(Minus(p, q))
  {
    var d := Minus(p, q);
    assert p.0 as real * 0.5 - q.0 as real * 0.5 == d.0 as real * 0.5;
    assert p.1 as real * 0.5 - q.1 as real * 0.5 == d.1 as real * 0.5;
    assert p.2 as real * 0.5 - q.2 as real * 0.5 == d.2 as real * 0.5;
    CleanHalves(d);
  }

  /** The product of two half-units is a quarter-unit. */
  lemma HalfTimesHalf(a: int, b: int)
    ensures (a as real * 0.5) * (b as real * 0.5) == (a * b) as real * 0.25
  {
    assert (a as real * 0.5) * (b as real * 0.5) == (a as real * b as real) * 0.25;
  }

  /** The difference of two products of half-units, in quarter-units. */
  lemma HalfCrossTerm(a: int, b: int, c: int, e: int)
    ensures (a as real * 0.5) * (b as real * 0.5) - (c as real * 0.5) * (e as real * 0.5)
      == (a * b - c * e) as real * 0.25
  {
    HalfTimesHalf(a, b);
    HalfTimesHalf(c, e);
  }

  /** The cross product of two vectors given in half-units. */
  lemma CrossOfHalves(d: (int, int, int), e: (int, int, int))
    ensures Half(d).Cross(Half(e)) == Quarter(IntCross(d, e))
  {
    HalfCrossTerm(d.1, e.2, d.2, e.1);
    HalfCrossTerm(d.2, e.0, d.0, e.2);
    HalfCrossTerm(d.0, e.1, d.1, e.0);
  }

  function Quarter(p: (int, int, int)): Vec3 {
    Vec3(p.0 as real * 0.25, p.1 as real * 0.25, p.2 as real * 0.25)
  }

  /** The corners of the unit cube centred on the origin, in half-units,
      as `cube` lists them: 0-3 on the face z = 0.5, 4-7 on z = -0.5. */
  const CUBE_CORNERS: seq<(int, int, int)> := [
    (-1, -1, 1), (1, -1, 1), (1, 1, 1), (-1, 1, 1),
    (-1, -1, -1), (1, -1, -1), (1, 1, -1), (-1, 1, -1)]

  /** The vertices `cube` builds, positions through `Vec3::new`, normals zero. */
  function CubeVertices(): (r: seq<Vertex>)
    ensures |r| == 8
  {
    seq(8, i requires 0 <= i < 8 => Vertex(Vec3.New(CUBE_CORNERS[i].0 as real * 0.5,
      CUBE_CORNERS[i].1 as real * 0.5, CUBE_CORNERS[i].2 as real * 0.5), Vec3.ZERO))
  }

  /** Cleaning does not move the cube's corners. */
  lemma CubePositions()
    ensures forall i :: 0 <= i < 8 ==> CubeVertices()[i] == Vertex(Half(CUBE_CORNERS[i]), Vec3.ZERO)
  {
    forall i | 0 <= i < 8
      ensures CubeVertices()[i] == Vertex(Half(CUBE_CORNERS[i]), Vec3.ZERO)
    {
      CleanHalves(CUBE_CORNERS[i]);
    }
  }

  /** Two triangles per face, in the order front, back, left, right, top,
      bottom. */
  const CUBE_TRIANGLES: seq<Tri> := [
    Tri(0, 1, 2), Tri(2, 3, 0),
    Tri(5, 4, 7), Tri(7, 6, 5),
    Tri(4, 0, 3), Tri(3, 7, 4),
    Tri(1, 5, 6), Tri(6, 2, 1),
    Tri(3, 2, 6), Tri(6, 7, 3),
    Tri(4, 5, 1), Tri(1, 0, 4)]

  /** The outward axis of face f, in the order of `CUBE_TRIANGLES`. */
  const CUBE_FACE_AXES: seq<(int, int, int)> := [
    (0, 0, 1), (0, 0, -1), (-1, 0, 0), (1, 0, 0), (0, 1, 0), (0, -1, 0)]

  /** The literal tables, entry by entry. */
  lemma CubeCornerValues()
    ensures CUBE_CORNERS[0] == (-1, -1, 1) && CUBE_CORNERS[1] == (1, -1, 1)
    ensures CUBE_CORNERS[2] == (1, 1, 1) && CUBE_CORNERS[3] == (-1, 1, 1)
    ensures CUBE_CORNERS[4] == (-1, -1, -1) && CUBE_CORNERS[5] == (1, -1, -1)
    ensures CUBE_CORNERS[6] == (1, 1, -1) && CUBE_CORNERS[7] == (-1, 1, -1)
  {
  }

  lemma CubeZFaceTriangleValues()
    ensures CUBE_TRIANGLES[0] == Tri(0, 1, 2) && CUBE_TRIANGLES[1] == Tri(2, 3, 0)
    ensures CUBE_TRIANGLES[2] == Tri(5, 4, 7) && CUBE_TRIANGLES[3] == Tri(7, 6, 5)
  {
  }

  lemma CubeXFaceTriangleValues()
    ensures CUBE_TRIANGLES[4] == Tri(4, 0, 3) && CUBE_TRIANGLES[5] == Tri(3, 7, 4)
    ensures CUBE_TRIANGLES[6] == Tri(1, 5, 6) && CUBE_TRIANGLES[7] == Tri(6, 2, 1)
  {
  }

  lemma CubeYFaceTriangleValues()
    ensures CUBE_TRIANGLES[8] == Tri(3, 2, 6) && CUBE_TRIANGLES[9] == Tri(6, 7, 3)
    ensures CUBE_TRIANGLES[10] == Tri(4, 5, 1) && CUBE_TRIANGLES[11] == Tri(1, 0, 4)
  {
  }

  lemma CubeFaceAxisValues()
    ensures CUBE_FACE_AXES[0] == (0, 0, 1) && CUBE_FACE_AXES[1] == (0, 0, -1)
    ensures CUBE_FACE_AXES[2] == (-1, 0, 0) && CUBE_FACE_AXES[3] == (1, 0, 0)
    ensures CUBE_FACE_AXES[4] == (0, 1, 0) && CUBE_FACE_AXES[5] == (0, -1, 0)
  {
  }

  /** The cube's index buffer covers 12 triangles over 8 vertices. */
  lemma CubeIndexBuffer()
    ensures |TriangleIndices(CUBE_TRIANGLES)| == 36
    ensures ValidTriangles(8, TriangleIndices(CUBE_TRIANGLES))
  {
    TrianglesAreValid(CUBE_TRIANGLES, 8);
  }

  /** Both triangles of face f lie on that face (every corner sits one
      half-unit out along the face's outward axis), and the two share the
      face's diagonal, walked in opposite directions. */
  lemma CubeFacesArePlanar()
    ensures forall t :: 0 <= t < 12 ==> CubeTriangleOnFace(t)
    ensures forall f :: 0 <= f < 6 ==> CubeFaceSharesDiagonal(f)
  {
    forall t | 0 <= t < 12
      ensures CubeTriangleOnFace(t)
    {
      CubeTriangleWindsAt(t);
    }
    forall f | 0 <= f < 6
      ensures CubeFaceSharesDiagonal(f)
    {
      CubeZFaceTriangleValues();
      CubeXFaceTriangleValues();
      CubeYFaceTriangleValues();
      assert f in {0, 1, 2, 3, 4, 5};
    }
  }

  /** In half-units, corner p lies on the face plane with outward axis n. */
  predicate OnFacePlane(p: (int, int, int), n: (int, int, int)) {
    p.0 * n.0 + p.1 * n.1 + p.2 * n.2 == 1
  }

  /** The three corners of triangle t lie on the plane of face t / 2. */
  predicate CubeTriangleOnFace(t: nat)
    requires t < 12
  {
    var tri, n := CUBE_TRIANGLES[t], CUBE_FACE_AXES[t / 2];
    OnFacePlane(CUBE_CORNERS[tri.a], n) && OnFacePlane(CUBE_CORNERS[tri.b], n) &&
    OnFacePlane(CUBE_CORNERS[tri.c], n)
  }

  /** The two triangles of face f share its diagonal, in opposite
      directions. */
  predicate CubeFaceSharesDiagonal(f: nat)
    requires f < 6
  {
    var first := CUBE_TRIANGLES[2 * f];
    first.HasEdge(first.c, first.a) && CUBE_TRIANGLES[2 * f + 1].HasEdge(first.a, first.c)
  }

  /** In integers: each triangle's edge cross product is four times its
      face's outward axis. */
  predicate CubeTriangleWinds(t: nat)
    requires t < 12
  {
    var tri := CUBE_TRIANGLES[t];
    var p0, p1, p2 := CUBE_CORNERS[tri.a], CUBE_CORNERS[tri.b], CUBE_CORNERS[tri.c];
    WindsAbout(p0, p1, p2, CUBE_FACE_AXES[t / 2])
  }

  /** A triangle of the face with outward axis n: its corners lie on the
      face's plane and it winds about n. */
  predicate FaceTriangle(p0: (int, int, int), p1: (int, int, int), p2: (int, int, int), n: (int, int, int)) {
    OnFacePlane(p0, n) && OnFacePlane(p1, n) && OnFacePlane(p2, n) && WindsAbout(p0, p1, p2, n)
  }

  /** The edge cross product out of p0 is four times the axis n. */
  predicate WindsAbout(p0: (int, int, int), p1: (int, int, int), p2: (int, int, int), n: (int, int, int)) {
    IntCross(Minus(p1, p0), Minus(p2, p0)) == (4 * n.0, 4 * n.1, 4 * n.2)
  }

  lemma CubeIntegerWinding()
    ensures forall t :: 0 <= t < 12 ==> CubeTriangleWinds(t)
  {
    forall t | 0 <= t < 12
      ensures CubeTriangleWinds(t)
    {
      CubeTriangleWindsAt(t);
    }
  }

  lemma CubeTriangleWindsAt(t: nat)
    requires t < 12
    ensures CubeTriangleWinds(t) && CubeTriangleOnFace(t)
  {
    if t == 0 || t == 1 {
      CubeFrontFace();
    } else if t == 2 || t == 3 {
      CubeBackFace();
    } else if t == 4 || t == 5 {
      CubeLeftFace();
    } else if t == 6 || t == 7 {
      CubeRightFace();
    } else if t == 8 || t == 9 {
      CubeTopFace();
    } else {
      assert t == 10 || t == 11;
      CubeBottomFace();
    }
  }

  /** The front (+z) face. */
  lemma CubeFrontFace()
    ensures CubeTriangleWinds(0) && CubeTriangleOnFace(0)
    ensures CubeTriangleWinds(1) && CubeTriangleOnFace(1)
  {
    CubeCornerValues();
    CubeFaceAxisValues();
    CubeZFaceTriangleValues();
    var c0, c1, c2, c3 := (-1, -1, 1), (1, -1, 1), (1, 1, 1), (-1, 1, 1);
    var c4, c5, c6, c7 := (-1, -1, -1), (1, -1, -1), (1, 1, -1), (-1, 1, -1);
    assert FaceTriangle(c0, c1, c2, (0, 0, 1));
    assert FaceTriangle(c2, c3, c0, (0, 0, 1));
  }

  /** The back (-z) face. */
  lemma CubeBackFace()
    ensures CubeTriangleWinds(2) && CubeTriangleOnFace(2)
    ensures CubeTriangleWinds(3) && CubeTriangleOnFace(3)
  {
    CubeCornerValues();
    CubeFaceAxisValues();
    CubeZFaceTriangleValues();
    var c0, c1, c2, c3 := (-1, -1, 1), (1, -1, 1), (1, 1, 1), (-1, 1, 1);
    var c4, c5, c6, c7 := (-1, -1, -1), (1, -1, -1), (1, 1, -1), (-1, 1, -1);
    assert FaceTriangle(c5, c4, c7, (0, 0, -1));
    assert FaceTriangle(c7, c6, c5, (0, 0, -1));
  }

  /** The left (-x) face. */
  lemma CubeLeftFace()
    ensures CubeTriangleWinds(4) && CubeTriangleOnFace(4)
    ensures CubeTriangleWinds(5) && CubeTriangleOnFace(5)
  {
    CubeCornerValues();
    CubeFaceAxisValues();
    CubeXFaceTriangleValues();
    var c0, c1, c2, c3 := (-1, -1, 1), (1, -1, 1), (1, 1, 1), (-1, 1, 1);
    var c4, c5, c6, c7 := (-1, -1, -1), (1, -1, -1), (1, 1, -1), (-1, 1, -1);
    assert FaceTriangle(c4, c0, c3, (-1, 0, 0));
    assert FaceTriangle(c3, c7, c4, (-1, 0, 0));
  }

  /** The right (+x) face. */
  lemma CubeRightFace()
    ensures CubeTriangleWinds(6) && CubeTriangleOnFace(6)
    ensures CubeTriangleWinds(7) && CubeTriangleOnFace(7)
  {
    CubeCornerValues();
    CubeFaceAxisValues();
    CubeXFaceTriangleValues();
    var c0, c1, c2, c3 := (-1, -1, 1), (1, -1, 1), (1, 1, 1), (-1, 1, 1);
    var c4, c5, c6, c7 := (-1, -1, -1), (1, -1, -1), (1, 1, -1), (-1, 1, -1);
    assert FaceTriangle(c1, c5, c6, (1, 0, 0));
    assert FaceTriangle(c6, c2, c1, (1, 0, 0));
  }

  /** The top (+y) face. */
  lemma CubeTopFace()
    ensures CubeTriangleWinds(8) && CubeTriangleOnFace(8)
    ensures CubeTriangleWinds(9) && CubeTriangleOnFace(9)
  {
    CubeCornerValues();
    CubeFaceAxisValues();
    CubeYFaceTriangleValues();
    var c0, c1, c2, c3 := (-1, -1, 1), (1, -1, 1), (1, 1, 1), (-1, 1, 1);
    var c4, c5, c6, c7 := (-1, -1, -1), (1, -1, -1), (1, 1, -1), (-1, 1, -1);
    assert FaceTriangle(c3, c2, c6, (0, 1, 0));
    assert FaceTriangle(c6, c7, c3, (0, 1, 0));
  }

  /** The bottom (-y) face. */
  lemma CubeBottomFace()
    ensures CubeTriangleWinds(10) && CubeTriangleOnFace(10)
    ensures CubeTriangleWinds(11) && CubeTriangleOnFace(11)
  {
    CubeCornerValues();
    CubeFaceAxisValues();
    CubeYFaceTriangleValues();
    var c0, c1, c2, c3 := (-1, -1, 1), (1, -1, 1), (1, 1, 1), (-1, 1, 1);
    var c4, c5, c6, c7 := (-1, -1, -1), (1, -1, -1), (1, 1, -1), (-1, 1, -1);
    assert FaceTriangle(c4, c5, c1, (0, -1, 0));
    assert FaceTriangle(c1, c0, c4, (0, -1, 0));
  }

  /** Every triangle is wound counter-clockwise seen from outside: the
      cross product of its two edges out of the first corner, as
      `generate_normals` forms it, is its face's outward unit axis. */
  lemma CubeWindingIsOutward(t: nat)
    requires t < 12
    ensures
      var tri := CUBE_TRIANGLES[t];
      var v0, v1, v2 := CubeVertices()[tri.a].position, CubeVertices()[tri.b].position, CubeVertices()[tri.c].position;
      var n := CUBE_FACE_AXES[t / 2];
      v1.Sub(v0).Cross(v2.Sub(v0)) == Vec3(n.0 as real, n.1 as real, n.2 as real)
  {
    var tri := CUBE_TRIANGLES[t];
    var p0, p1, p2 := CUBE_CORNERS[tri.a], CUBE_CORNERS[tri.b], CUBE_CORNERS[tri.c];
    CubePositions();
    SubOfHalves(p1, p0);
    SubOfHalves(p2, p0);
    CrossOfHalves(Minus(p1, p0), Minus(p2, p0));
    CubeIntegerWinding();
    assert CubeTriangleWinds(t);
  }

  /** For each triangle, the triangles across its sides a-b, b-c and c-a. */
  const CUBE_TWINS: seq<(nat, nat, nat)> := [
    (11, 7, 1), (8, 4, 0), (10, 5, 3), (9, 6, 2), (11, 1, 5), (9, 2, 4),
    (10, 3, 7), (8, 0, 6), (1, 7, 9), (3, 5, 8), (2, 6, 11), (0, 4, 10)]

  predicate CubeTwinsAt(t: nat)
    requires t < 12
  {
    var tri, tw := CUBE_TRIANGLES[t], CUBE_TWINS[t];
    tw.0 < 12 && tw.1 < 12 && tw.2 < 12 && tw.0 != t && tw.1 != t && tw.2 != t &&
    CUBE_TRIANGLES[tw.0].HasEdge(tri.b, tri.a) &&
    CUBE_TRIANGLES[tw.1].HasEdge(tri.c, tri.b) &&
    CUBE_TRIANGLES[tw.2].HasEdge(tri.a, tri.c)
  }

  lemma CubeTwins()
    ensures forall t :: 0 <= t < 12 ==> CubeTwinsAt(t)
  {
    forall t | 0 <= t < 12
      ensures CubeTwinsAt(t)
    {
      assert t in {0, 1, 2, 3, 4, 5, 6, 7, 8, 9, 10, 11};
    }
  }

  /** The cube is a closed surface with consistent winding: every side of
      every triangle is shared with another triangle that walks it the
      other way. */
  lemma CubeIsClosed()
    ensures ClosedSurface(CUBE_TRIANGLES)
  {
    CubeTwins();
    forall t, p, q | 0 <= t < 12 && CUBE_TRIANGLES[t].HasEdge(p, q)
      ensures exists s :: 0 <= s < 12 && s != t && CUBE_TRIANGLES[s].HasEdge(q, p)
    {
      var tri, tw := CUBE_TRIANGLES[t], CUBE_TWINS[t];
      assert CubeTwinsAt(t);
      if tri.a == p && tri.b == q {
        assert CUBE_TRIANGLES[tw.0].HasEdge(q, p);
      } else if tri.b == p && tri.c == q {
        assert CUBE_TRIANGLES[tw.1].HasEdge(q, p);
      } else {
        assert CUBE_TRIANGLES[tw.2].HasEdge(q, p);
      }
    }
  }

  /** The index buffer `cube` writes out. */
  const CUBE_INDEX_LITERAL: seq<u16> := [0, 1, 2, 2, 3, 0, 5, 4, 7, 7, 6, 5, 4, 0, 3, 3, 7, 4,
    1, 5, 6, 6, 2, 1, 3, 2, 6, 6, 7, 3, 4, 5, 1, 1, 0, 4]

  lemma CubeIndexLiteral()
    ensures TriangleIndices(CUBE_TRIANGLES) == CUBE_INDEX_LITERAL
  {
    var r := TriangleIndices(CUBE_TRIANGLES);
    CubeIndexFaces(0);
    CubeIndexFaces(1);
    CubeIndexFaces(2);
    forall k | 0 <= k < 36
      ensures r[k] == CUBE_INDEX_LITERAL[k]
    {
      assert k / 12 < 3;
    }
  }

  /** Indices 12g through 12g + 11: the two faces along one axis. */
  lemma CubeIndexFaces(g: nat)
    requires g < 3
    ensures forall k :: 12 * g <= k < 12 * g + 12 ==>
      TriangleIndices(CUBE_TRIANGLES)[k] == CUBE_INDEX_LITERAL[k]
  {
    var r := TriangleIndices(CUBE_TRIANGLES);
    if g == 0 { CubeZFaceTriangleValues(); }
    else if g == 1 { CubeXFaceTriangleValues(); }
    else { CubeYFaceTriangleValues(); }
    forall k | 12 * g <= k < 12 * g + 12
      ensures r[k] == CUBE_INDEX_LITERAL[k]
    {
      SplitIndex(k, 3, 12);
      var t := k / 3;
      TriangleIndicesAt(CUBE_TRIANGLES, t);
      assert t == 4 * g || t == 4 * g + 1 || t == 4 * g + 2 || t == 4 * g + 3;
    }
  }

  /** A unit axis is its own normalization when sqrt(1) = 1. */
  lemma NormalizeAxis(n: (int, int, int), lib: Libm)
    requires lib.Sqrt(1.0) == 1.0
    requires n in [(0, 0, 1), (0, 0, -1), (-1, 0, 0), (1, 0, 0), (0, 1, 0), (0, -1, 0)]
    ensures Vec3(n.0 as real, n.1 as real, n.2 as real).Normalize(lib) == Vec3(n.0 as real, n.1 as real, n.2 as real)
  {
    var axis := Vec3(n.0 as real, n.1 as real, n.2 as real);
    assert axis.Dot(axis) == 1.0;
    assert axis.Length(lib) == 1.0;
    assert axis.Div(1.0) == Vec3.New(n.0 as real, n.1 as real, n.2 as real);
    CleanIntegerVector(n.0, n.1, n.2);
  }

  /** With a square root that knows sqrt(1) = 1, the face normal of every
      cube triangle is its face's outward unit axis. */
  lemma CubeFaceNormals(lib: Libm, t: nat)
    requires lib.Sqrt(1.0) == 1.0 && t < 12
    ensures ValidTriangles(8, TriangleIndices(CUBE_TRIANGLES))
    ensures var n := CUBE_FACE_AXES[t / 2];
      FaceNormal(CubeVertices(), TriangleIndices(CUBE_TRIANGLES), t, lib) == Vec3(n.0 as real, n.1 as real, n.2 as real)
  {
    CubeIndexBuffer();
    TriangleIndicesAt(CUBE_TRIANGLES, t);
    CubeWindingIsOutward(t);
    var n := CUBE_FACE_AXES[t / 2];
    assert n in CUBE_FACE_AXES;
    NormalizeAxis(n, lib);
  }

  // ---------------------------------------------------------------- cone

  /** The angle of ring vertex i of n: `i as f32 / segments as f32 * TAU`. */
  function RingAngle(i: nat, n: nat): real
    requires n > 0
  {
    (i as real / n as real) * TAU
  }

  /** The ring index after i, wrapping to 0 after the last, as the cone's
      fans write it. */
  function ConeNext(i: nat, n: nat): (r: nat)
    requires i < n
    ensures r < n
  {
    if i + 1 < n then i + 1 else 0
  }

  /** The vertices `cone` builds: the tip, the centre of the base, then the
      n points of the base rim at radius 0.5. */
  function ConeVertices(n: nat, lib: Libm): (r: seq<Vertex>)
    ensures |r| == n + 2
  {
    [Vertex(Vec3.New(0.0, 0.5, 0.0), Vec3.ZERO), Vertex(Vec3.New(0.0, -0.5, 0.0), Vec3.ZERO)] +
    seq(n, i requires 0 <= i < n =>
      Vertex(Vec3.New(0.5 * lib.Cos(RingAngle(i, n)), -0.5, 0.5 * lib.Sin(RingAngle(i, n))), Vec3.ZERO))
  }

  /** The largest segment count whose indices fit in `u16`: the last rim
      index is 2 + (n - 1). */
  const CONE_MAX_SEGMENTS: nat := 65534

  /** Triangle t of the cone: the side fan from the tip first, then the
      base fan from the base centre. */
  function ConeTriangle(n: nat, t: nat): Tri
    requires n <= CONE_MAX_SEGMENTS && t < 2 * n
  {
    if t < n then Tri(0, (2 + ConeNext(t, n)) as u16, (2 + t) as u16)
    else Tri(1, (2 + (t - n)) as u16, (2 + ConeNext(t - n, n)) as u16)
  }

  function ConeTriangles(n: nat): (r: seq<Tri>)
    requires n <= CONE_MAX_SEGMENTS
    ensures |r| == 2 * n
  {
    seq(2 * n, t requires 0 <= t < 2 * n => ConeTriangle(n, t))
  }

  /** Triangle s walks the edge p -> q and triangle t walks it back. */
  predicate RimEdgeShared(tris: seq<Tri>, s: nat, t: nat, p: u16, q: u16) {
    s < |tris| && t < |tris| && tris[s].HasEdge(q, p) && tris[t].HasEdge(p, q)
  }

  /** Pass i of the base-fan loop appends triangle n + i of the list. */
  lemma ConeBaseStep(n: nat, i: nat)
    requires n <= CONE_MAX_SEGMENTS && i < n
    ensures
      var next := if i + 1 < n then i + 1 else 0;
      TriangleIndices(ConeTriangles(n)[..n + i + 1])
        == TriangleIndices(ConeTriangles(n)[..n + i]) + [1, (2 + i) as u16, (2 + next) as u16]
  {
    var tris := ConeTriangles(n);
    assert tris[n + i] == ConeTriangle(n, n + i);
    TriangleIndicesSnoc(tris, n + i);
  }

  /** The cone's index buffer holds 2n triangles naming only its n + 2
      vertices. */
  lemma ConeIndexBuffer(n: nat)
    requires n <= CONE_MAX_SEGMENTS
    ensures |TriangleIndices(ConeTriangles(n))| == 6 * n
    ensures ValidTriangles(n + 2, TriangleIndices(ConeTriangles(n)))
  {
    var tris := ConeTriangles(n);
    forall t | 0 <= t < |tris|
      ensures tris[t].Below(n + 2)
    {
    }
    TrianglesAreValid(tris, n + 2);
  }

  /** Every side triangle has the tip as its first corner and every base
      triangle the base centre; the side and base triangles of segment i
      walk the rim edge between ring points i and i+1 in opposite
      directions. */
  lemma ConeFans(n: nat)
    requires n <= CONE_MAX_SEGMENTS
    ensures forall t :: 0 <= t < n ==> ConeTriangles(n)[t].a == 0
    ensures forall t :: n <= t < 2 * n ==> ConeTriangles(n)[t].a == 1
    ensures forall i :: 0 <= i < n ==> RimEdgeShared(ConeTriangles(n), i, n + i, (2 + i) as u16, (2 + ConeNext(i, n)) as u16)
  {
    var tris := ConeTriangles(n);
    forall t | 0 <= t < 2 * n
      ensures tris[t].a == (if t < n then 0 else 1)
    {
      assert tris[t] == ConeTriangle(n, t);
    }
    forall i | 0 <= i < n
      ensures RimEdgeShared(tris, i, n + i, (2 + i) as u16, (2 + ConeNext(i, n)) as u16)
    {
      assert tris[n + i] == ConeTriangle(n, n + i);
    }
  }

  /** The ring index before i. */
  function ConePrev(i: nat, n: nat): (r: nat)
    requires i < n
    ensures r < n && ConeNext(r, n) == i
  {
    if i == 0 then n - 1 else i - 1
  }

  /** With at least two segments the cone is a closed surface with
      consistent winding. */
  lemma ConeIsClosed(n: nat)
    requires 2 <= n <= CONE_MAX_SEGMENTS
    ensures ClosedSurface(ConeTriangles(n))
  {
    var tris := ConeTriangles(n);
    forall t, p, q | 0 <= t < |tris| && tris[t].HasEdge(p, q)
      ensures exists s :: 0 <= s < |tris| && s != t && tris[s].HasEdge(q, p)
    {
      var tri := tris[t];
      if t < n {
        var i := t;
        var nx, pv := ConeNext(i, n), ConePrev(i, n);
        if tri.a == p && tri.b == q {
          assert tris[nx].HasEdge(q, p);
        } else if tri.b == p && tri.c == q {
          assert tris[n + i].HasEdge(q, p);
        } else {
          assert tris[pv].HasEdge(q, p);
        }
      } else {
        var i := t - n;
        var nx, pv := ConeNext(i, n), ConePrev(i, n);
        if tri.a == p && tri.b == q {
          assert tris[n + pv].HasEdge(q, p);
        } else if tri.b == p && tri.c == q {
          assert tris[i].HasEdge(q, p);
        } else {
          assert tris[n + nx].HasEdge(q, p);
        }
      }
    }
  }

  // ------------------------------------------------------------ cylinder

  /** Three corners with two of them at one position span no area, and the
      face normal `generate_normals` adds for them is zero. */
  lemma DegenerateFaceNormal(vs: seq<Vertex>, indices: seq<u16>, t: nat, lib: Libm)
    requires ValidTriangles(|vs|, indices) && t < |indices| / 3
    requires var p0, p1, p2 := vs[Corner(indices, t, 0)].position, vs[Corner(indices, t, 1)].position, vs[Corner(indices, t, 2)].position;
      p0 == p1 || p1 == p2 || p2 == p0
    ensures FaceNormal(vs, indices, t, lib) == Vec3.ZERO
  {
    var v0 := vs[Corner(indices, t, 0)].position;
    var v1 := vs[Corner(indices, t, 1)].position;
    var v2 := vs[Corner(indices, t, 2)].position;
    var e1, e2 := v1.Sub(v0), v2.Sub(v0);
    if v1 == v2 {
      assert e1 == e2;
      CrossSelfIsZero(e1);
    } else if v1 == v0 {
      assert e1 == Vec3.ZERO;
    } else {
      assert e2 == Vec3.ZERO;
    }
    assert e1.Cross(e2) == Vec3.ZERO;
  }

  /** The largest segment count whose indices fit in `u16`: the last index
      of the wall loop is 2n + n + (n - 1). */
  const CYLINDER_MAX_SEGMENTS: nat := 16384

  /** The height of ring b of the cylinder (b < 4): the first two rings at
      y = -0.5, the last two at y = 0.5. */
  function RingHeight(b: nat): real {
    if b < 2 then -0.5 else 0.5
  }

  /** The radius of ring b: rings 0 and 2 at radius 1, rings 1 and 3 at
      radius 0, on the axis. */
  function RingRadius(b: nat): real {
    if b % 2 == 0 then 1.0 else 0.0
  }

  /** n points at height y on the circle of radius r. */
  function CylinderRing(n: nat, y: real, r: real, lib: Libm): (vs: seq<Vertex>)
    ensures |vs| == n
  {
    seq(n, i requires 0 <= i < n => RingPoint(n, y, r, lib, i))
  }

  /** Point i of n at height y on the circle of radius r. */
  function RingPoint(n: nat, y: real, r: real, lib: Libm, i: nat): Vertex
    requires i < n
  {
    Vertex(Vec3.New(CircleX(r, RingAngle(i, n), lib), y, CircleZ(r, RingAngle(i, n), lib)), Vec3.ZERO)
  }

  /** `r * theta.cos()` and `r * theta.sin()`: named, so that the solver
      compares the products as terms rather than as polynomials. */
  function CircleX(r: real, theta: real, lib: Libm): real {
    r * lib.Cos(theta)
  }

  function CircleZ(r: real, theta: real, lib: Libm): real {
    r * lib.Sin(theta)
  }

  /** The first m rings of the cylinder, in the order its loops push them. */
  function CylinderRings(n: nat, m: nat, lib: Libm): (vs: seq<Vertex>)
    ensures |vs| == m * n
  {
    if m == 0 then []
    else CylinderRings(n, m - 1, lib) + CylinderRing(n, RingHeight(m - 1), RingRadius(m - 1), lib)
  }

  /** The vertices `cylinder` builds: four rings of n. */
  function CylinderVertices(n: nat, lib: Libm): (vs: seq<Vertex>)
    ensures |vs| == 4 * n
  {
    CylinderRings(n, 4, lib)
  }

  /** Vertex b*n + i is point i of ring b. */
  lemma {:induction false} CylinderRingsAt(n: nat, m: nat, lib: Libm, b: nat, i: nat)
    requires b < m && i < n
    ensures b * n + i < m * n
    ensures CylinderRings(n, m, lib)[b * n + i] == CylinderRing(n, RingHeight(b), RingRadius(b), lib)[i]
  {
    assert b * n + i < (b + 1) * n <= m * n;
    if b < m - 1 {
      CylinderRingsAt(n, m - 1, lib, b, i);
    } else {
      assert b * n == (m - 1) * n;
    }
  }

  /** Every point of rings 1 and 3 lies on the axis, at the centre of its
      end of the cylinder. */
  lemma CylinderAxisRings(n: nat, lib: Libm)
    ensures forall k :: n <= k < 2 * n ==> CylinderVertices(n, lib)[k].position == Vec3.New(0.0, -0.5, 0.0)
    ensures forall k :: 3 * n <= k < 4 * n ==> CylinderVertices(n, lib)[k].position == Vec3.New(0.0, 0.5, 0.0)
  {
    var vs := CylinderVertices(n, lib);
    forall k | n <= k < 2 * n
      ensures vs[k].position == Vec3.New(0.0, -0.5, 0.0)
    {
      CylinderRingsAt(n, 4, lib, 1, k - n);
      assert 1 * n + (k - n) == k;
    }
    forall k | 3 * n <= k < 4 * n
      ensures vs[k].position == Vec3.New(0.0, 0.5, 0.0)
    {
      CylinderRingsAt(n, 4, lib, 3, k - 3 * n);
      assert 3 * n + (k - 3 * n) == k;
    }
  }

  /** The cylinder's `next = (i + 1) % segments`. */
  function RingNext(i: nat, n: nat): (r: nat)
    requires i < n
    ensures r < n
  {
    (i + 1) % n
  }

  /** Triangle `kind` (< 8) of segment i, with next = (i + 1) % n and the
      second end's rings starting at 2n:
      kinds 0 and 1 are the first end's pair, 2 and 3 the second end's,
      4 and 5 the outer wall and 6 and 7 the wall between the axis rings. */
  function CylinderTri(n: nat, kind: nat, i: nat): Tri
    requires n <= CYLINDER_MAX_SEGMENTS && kind < 8 && i < n
  {
    var nx := RingNext(i, n);
    var b := 2 * n;
    if kind == 0 then Tri(i as u16, (n + nx) as u16, (n + i) as u16)
    else if kind == 1 then Tri(i as u16, nx as u16, (n + nx) as u16)
    else if kind == 2 then Tri((b + i) as u16, (b + n + i) as u16, (b + n + nx) as u16)
    else if kind == 3 then Tri((b + i) as u16, (b + n + nx) as u16, (b + nx) as u16)
    else if kind == 4 then Tri(i as u16, (b + i) as u16, (b + nx) as u16)
    else if kind == 5 then Tri(i as u16, (b + nx) as u16, nx as u16)
    else if kind == 6 then Tri((n + i) as u16, (b + n + nx) as u16, (b + n + i) as u16)
    else Tri((n + i) as u16, (n + nx) as u16, (b + n + nx) as u16)
  }

  /** Where triangle `kind` of segment i sits in the index buffer: the
      first loop emits two per segment, the second two, the third four. */
  function CylinderSlot(n: nat, kind: nat, i: nat): (t: nat)
    requires kind < 8 && i < n
    ensures t < 8 * n
  {
    if kind < 2 then 2 * i + kind
    else if kind < 4 then 2 * n + 2 * i + (kind - 2)
    else 4 * n + 4 * i + (kind - 4)
  }

  /** The kind of the triangle in slot t. */
  function SlotKind(n: nat, t: nat): (kind: nat)
    requires t < 8 * n
    ensures kind < 8
  {
    if t < 2 * n then t % 2
    else if t < 4 * n then 2 + (t - 2 * n) % 2
    else 4 + (t - 4 * n) % 4
  }

  /** The segment of the triangle in slot t. */
  function SlotSegment(n: nat, t: nat): (i: nat)
    requires t < 8 * n
    ensures i < n
  {
    if t < 2 * n then t / 2
    else if t < 4 * n then (t - 2 * n) / 2
    else (t - 4 * n) / 4
  }

  /** Slots and (kind, segment) pairs are in one-to-one correspondence. */
  lemma SlotRoundTrip(n: nat, t: nat)
    requires t < 8 * n
    ensures CylinderSlot(n, SlotKind(n, t), SlotSegment(n, t)) == t
  {
    if t < 2 * n {
      assert t == 2 * (t / 2) + t % 2;
    } else if t < 4 * n {
      assert t - 2 * n == 2 * ((t - 2 * n) / 2) + (t - 2 * n) % 2;
    } else {
      assert t - 4 * n == 4 * ((t - 4 * n) / 4) + (t - 4 * n) % 4;
    }
  }

  /** Division by 2 and by 4, spelled out. */
  lemma DivModTwo(a: nat, q: nat, r: nat)
    requires r < 2 && a == 2 * q + r
    ensures a / 2 == q && a % 2 == r
  {
  }

  lemma DivModFour(a: nat, q: nat, r: nat)
    requires r < 4 && a == 4 * q + r
    ensures a / 4 == q && a % 4 == r
  {
  }

  lemma SlotOfKind(n: nat, kind: nat, i: nat)
    requires kind < 8 && i < n
    ensures SlotKind(n, CylinderSlot(n, kind, i)) == kind
    ensures SlotSegment(n, CylinderSlot(n, kind, i)) == i
  {
    var t := CylinderSlot(n, kind, i);
    if kind < 2 {
      assert t == 2 * i + kind < 2 * n;
      DivModTwo(t, i, kind);
    } else if kind < 4 {
      assert 2 * n <= t < 4 * n && t - 2 * n == 2 * i + (kind - 2);
      DivModTwo(t - 2 * n, i, kind - 2);
    } else {
      assert 4 * n <= t && t - 4 * n == 4 * i + (kind - 4);
      DivModFour(t - 4 * n, i, kind - 4);
    }
  }

  /** The triangles one pass of a cylinder index loop emits for segment i:
      `count` triangles of kinds first, first + 1, ... */
  function CylinderSegment(n: nat, first: nat, count: nat, i: nat): (r: seq<Tri>)
    requires n <= CYLINDER_MAX_SEGMENTS && first + count <= 8 && i < n
    ensures |r| == count
    ensures forall k :: 0 <= k < count ==> r[k] == CylinderTri(n, first + k, i)
  {
    seq(count, k requires 0 <= k < count => CylinderTri(n, first + k, i))
  }

  /** The triangles a cylinder index loop emits in its first m passes. */
  function CylinderLoop(n: nat, first: nat, count: nat, m: nat): (r: seq<Tri>)
    requires n <= CYLINDER_MAX_SEGMENTS && first + count <= 8 && m <= n
    ensures |r| == count * m
  {
    if m == 0 then []
    else CylinderLoop(n, first, count, m - 1) + CylinderSegment(n, first, count, m - 1)
  }

  /** The triangles of `cylinder`, loop by loop: two per segment at the
      first end, two per segment at the second, four per segment of wall. */
  function CylinderTriangles(n: nat): (r: seq<Tri>)
    requires n <= CYLINDER_MAX_SEGMENTS
    ensures |r| == 8 * n
  {
    CylinderLoop(n, 0, 2, n) + CylinderLoop(n, 2, 2, n) + CylinderLoop(n, 4, 4, n)
  }

  /** Pass i of a loop puts its k-th triangle at count * i + k. */
  lemma {:induction false} CylinderLoopAt(n: nat, first: nat, count: nat, m: nat, i: nat, k: nat)
    requires n <= CYLINDER_MAX_SEGMENTS && first + count <= 8 && m <= n
    requires i < m && k < count
    ensures count * i + k < count * m
    ensures CylinderLoop(n, first, count, m)[count * i + k] == CylinderTri(n, first + k, i)
  {
    assert count * m == count * (m - 1) + count;
    if i < m - 1 {
      assert count * i + count <= count * (m - 1) by {
        assert count * (m - 1) == count * i + count * (m - 1 - i);
      }
      CylinderLoopAt(n, first, count, m - 1, i, k);
    } else {
      assert count * i == count * (m - 1);
    }
  }

  lemma CylinderTriangleAt(n: nat, kind: nat, i: nat)
    requires n <= CYLINDER_MAX_SEGMENTS && kind < 8 && i < n
    ensures CylinderTriangles(n)[CylinderSlot(n, kind, i)] == CylinderTri(n, kind, i)
  {
    var l1, l2, l3 := CylinderLoop(n, 0, 2, n), CylinderLoop(n, 2, 2, n), CylinderLoop(n, 4, 4, n);
    var t := CylinderSlot(n, kind, i);
    assert CylinderTriangles(n) == l1 + l2 + l3;
    if kind < 2 {
      CylinderLoopAt(n, 0, 2, n, i, kind);
      assert t == 2 * i + kind;
    } else if kind < 4 {
      CylinderLoopAt(n, 2, 2, n, i, kind - 2);
      assert t == 2 * n + (2 * i + (kind - 2));
    } else {
      CylinderLoopAt(n, 4, 4, n, i, kind - 4);
      assert t == 4 * n + (4 * i + (kind - 4));
    }
  }

  /** The index buffer of two lists of triangles is the two buffers in turn. */
  lemma {:induction false} TriangleIndicesAppend(a: seq<Tri>, b: seq<Tri>)
    ensures TriangleIndices(a + b) == TriangleIndices(a) + TriangleIndices(b)
  {
    if b == [] {
      assert a + b == a;
    } else {
      var front := b[..|b| - 1];
      var last := b[|b| - 1];
      assert (a + b)[..|a + b| - 1] == a + front;
      TriangleIndicesAppend(a, front);
    }
  }

  /** One more pass of a loop appends the indices of its segment. */
  lemma CylinderLoopStep(n: nat, first: nat, count: nat, i: nat)
    requires n <= CYLINDER_MAX_SEGMENTS && first + count <= 8 && i < n
    ensures TriangleIndices(CylinderLoop(n, first, count, i + 1))
      == TriangleIndices(CylinderLoop(n, first, count, i)) + TriangleIndices(CylinderSegment(n, first, count, i))
  {
    TriangleIndicesAppend(CylinderLoop(n, first, count, i), CylinderSegment(n, first, count, i));
  }

  /** The indices of two triangles. */
  lemma TriangleIndicesOfTwo(s: seq<Tri>)
    requires |s| == 2
    ensures TriangleIndices(s) == [s[0].a, s[0].b, s[0].c] + [s[1].a, s[1].b, s[1].c]
  {
    assert s[..1] == [s[0]];
    assert s[..1][..0] == [];
  }

  /** The indices of four triangles. */
  lemma TriangleIndicesOfFour(s: seq<Tri>)
    requires |s| == 4
    ensures TriangleIndices(s) == [s[0].a, s[0].b, s[0].c] + [s[1].a, s[1].b, s[1].c]
      + [s[2].a, s[2].b, s[2].c] + [s[3].a, s[3].b, s[3].c]
  {
    assert s == s[..2] + s[2..];
    TriangleIndicesAppend(s[..2], s[2..]);
    TriangleIndicesOfTwo(s[..2]);
    TriangleIndicesOfTwo(s[2..]);
    AppendAssociates([s[0].a, s[0].b, s[0].c] + [s[1].a, s[1].b, s[1].c],
      [s[2].a, s[2].b, s[2].c], [s[3].a, s[3].b, s[3].c]);
  }

  /** Concatenation is associative. */
  lemma AppendAssociates<T>(a: seq<T>, b: seq<T>, c: seq<T>)
    ensures a + b + c == a + (b + c)
  {
  }

  /** Appending four pieces one after another appends their concatenation. */
  lemma AppendFour<T>(s: seq<T>, a: seq<T>, b: seq<T>, c: seq<T>, d: seq<T>)
    ensures s + a + b + c + d == s + (a + b + c + d)
  {
  }

  /** The indices of segment i of the wall loop, corner by corner. */
  lemma CylinderWallIndices(n: nat, i: nat)
    requires n <= CYLINDER_MAX_SEGMENTS && i < n
    ensures
      var nx, b := RingNext(i, n), 2 * n;
      TriangleIndices(CylinderSegment(n, 4, 4, i)) ==
        [i as u16, (b + i) as u16, (b + nx) as u16] +
        [i as u16, (b + nx) as u16, nx as u16] +
        [(n + i) as u16, (b + n + nx) as u16, (b + n + i) as u16] +
        [(n + i) as u16, (n + nx) as u16, (b + n + nx) as u16]
  {
    var segment := CylinderSegment(n, 4, 4, i);
    TriangleIndicesOfFour(segment);
    assert segment[0] == CylinderTri(n, 4, i);
    assert segment[1] == CylinderTri(n, 5, i);
    assert segment[2] == CylinderTri(n, 6, i);
    assert segment[3] == CylinderTri(n, 7, i);
  }

  /** Appending segment i's four wall triangles, corner by corner, to the
      indices of the first i segments gives the indices of the first i + 1. */
  lemma CylinderWallsStep(n: nat, prefix: seq<u16>, i: nat, before: seq<u16>)
    requires n <= CYLINDER_MAX_SEGMENTS && i < n
    requires before == prefix + TriangleIndices(CylinderLoop(n, 4, 4, i))
    ensures
      var nx, b := RingNext(i, n), 2 * n;
      before + [i as u16, (b + i) as u16, (b + nx) as u16] +
        [i as u16, (b + nx) as u16, nx as u16] +
        [(n + i) as u16, (b + n + nx) as u16, (b + n + i) as u16] +
        [(n + i) as u16, (n + nx) as u16, (b + n + nx) as u16]
      == prefix + TriangleIndices(CylinderLoop(n, 4, 4, i + 1))
  {
    var nx, b := RingNext(i, n), 2 * n;
    var wall1, wall2 := [i as u16, (b + i) as u16, (b + nx) as u16], [i as u16, (b + nx) as u16, nx as u16];
    var axis1 := [(n + i) as u16, (b + n + nx) as u16, (b + n + i) as u16];
    var axis2 := [(n + i) as u16, (n + nx) as u16, (b + n + nx) as u16];
    CylinderLoopStep(n, 4, 4, i);
    CylinderWallIndices(n, i);
    AppendFour(before, wall1, wall2, axis1, axis2);
    AppendAssociates(prefix, TriangleIndices(CylinderLoop(n, 4, 4, i)), wall1 + wall2 + axis1 + axis2);
  }

  /** The cylinder's index buffer holds 8n triangles naming only its 4n
      vertices. */
  lemma CylinderIndexBuffer(n: nat)
    requires n <= CYLINDER_MAX_SEGMENTS
    ensures |TriangleIndices(CylinderTriangles(n))| == 24 * n
    ensures ValidTriangles(4 * n, TriangleIndices(CylinderTriangles(n)))
  {
    var tris := CylinderTriangles(n);
    forall t | 0 <= t < |tris|
      ensures tris[t].Below(4 * n)
    {
      var kind, i := SlotKind(n, t), SlotSegment(n, t);
      SlotRoundTrip(n, t);
      CylinderTriangleAt(n, kind, i);
      CylinderTriBelow(n, kind, i);
    }
    TrianglesAreValid(tris, 4 * n);
  }

  /** Every corner of every cylinder triangle names one of its 4n vertices. */
  lemma CylinderTriBelow(n: nat, kind: nat, i: nat)
    requires n <= CYLINDER_MAX_SEGMENTS && kind < 8 && i < n
    ensures CylinderTri(n, kind, i).Below(4 * n)
  {
  }

  /** The triangles of kinds 0, 2, 6 and 7 each have two corners on one
      axis ring, so they span no area: half of the cylinder's triangles add
      a zero face normal. */
  lemma CylinderDegenerateTriangles(n: nat, lib: Libm, kind: nat, i: nat)
    requires n <= CYLINDER_MAX_SEGMENTS && i < n
    requires kind == 0 || kind == 2 || kind == 6 || kind == 7
    ensures ValidTriangles(4 * n, TriangleIndices(CylinderTriangles(n)))
    ensures CylinderSlot(n, kind, i) < |TriangleIndices(CylinderTriangles(n))| / 3
    ensures FaceNormal(CylinderVertices(n, lib), TriangleIndices(CylinderTriangles(n)), CylinderSlot(n, kind, i), lib) == Vec3.ZERO
  {
    var tris := CylinderTriangles(n);
    var t := CylinderSlot(n, kind, i);
    var indices, vs := TriangleIndices(tris), CylinderVertices(n, lib);
    CylinderIndexBuffer(n);
    CylinderTriangleAt(n, kind, i);
    TriangleIndicesAt(tris, t);
    CylinderDegenerateCorners(n, lib, kind, i);
    var tri := CylinderTri(n, kind, i);
    assert Corner(indices, t, 0) == tri.a as nat && Corner(indices, t, 1) == tri.b as nat && Corner(indices, t, 2) == tri.c as nat;
    DegenerateFaceNormal(vs, indices, t, lib);
  }

  /** Two corners of a triangle of kind 0, 2, 6 or 7 lie on the same axis
      ring, so they share a position. */
  lemma CylinderDegenerateCorners(n: nat, lib: Libm, kind: nat, i: nat)
    requires n <= CYLINDER_MAX_SEGMENTS && i < n
    requires kind == 0 || kind == 2 || kind == 6 || kind == 7
    ensures var tri, vs := CylinderTri(n, kind, i), CylinderVertices(n, lib);
      tri.a as nat < 4 * n && tri.b as nat < 4 * n && tri.c as nat < 4 * n &&
      (vs[tri.a].position == vs[tri.b].position || vs[tri.b].position == vs[tri.c].position)
  {
    CylinderAxisRings(n, lib);
    var tri := CylinderTri(n, kind, i);
    if kind == 0 {
      assert n <= tri.b as nat < 2 * n && n <= tri.c as nat < 2 * n;
    } else if kind == 7 {
      assert n <= tri.a as nat < 2 * n && n <= tri.b as nat < 2 * n;
    } else {
      assert 3 * n <= tri.b as nat < 4 * n && 3 * n <= tri.c as nat < 4 * n;
    }
  }

  /** The ring index before i, the inverse of `RingNext`. */
  function RingPrev(i: nat, n: nat): (r: nat)
    requires i < n
    ensures r < n && RingNext(r, n) == i
  {
    if i == 0 then n - 1 else i - 1
  }

  /** A triangle of the first end (kinds 0 and 1): the triangle that walks each
      of its edges back, always of another kind. */
  lemma CylinderCapTwin(n: nat, kind: nat, i: nat, p: u16, q: u16) returns (k: nat, j: nat)
    requires n <= CYLINDER_MAX_SEGMENTS && (kind == 0 || kind == 1) && i < n
    requires CylinderTri(n, kind, i).HasEdge(p, q)
    ensures k < 8 && j < n && k != kind && CylinderTri(n, k, j).HasEdge(q, p)
  {
    var tri := CylinderTri(n, kind, i);
    var nx, pv := RingNext(i, n), RingPrev(i, n);
    if kind == 0 {
      if tri.a == p && tri.b == q {
        k, j := 1, i;
      } else if tri.b == p && tri.c == q {
        k, j := 7, i;
      } else {
        k, j := 1, pv;
      }
    } else {
      if tri.a == p && tri.b == q {
        k, j := 5, i;
      } else if tri.b == p && tri.c == q {
        k, j := 0, nx;
      } else {
        k, j := 0, i;
      }
    }
  }

  /** A triangle of the second end (kinds 2 and 3): the triangle that walks each
      of its edges back, always of another kind. */
  lemma CylinderSecondCapTwin(n: nat, kind: nat, i: nat, p: u16, q: u16) returns (k: nat, j: nat)
    requires n <= CYLINDER_MAX_SEGMENTS && (kind == 2 || kind == 3) && i < n
    requires CylinderTri(n, kind, i).HasEdge(p, q)
    ensures k < 8 && j < n && k != kind && CylinderTri(n, k, j).HasEdge(q, p)
  {
    var tri := CylinderTri(n, kind, i);
    var nx, pv := RingNext(i, n), RingPrev(i, n);
    if kind == 2 {
      if tri.a == p && tri.b == q {
        k, j := 3, pv;
      } else if tri.b == p && tri.c == q {
        k, j := 6, i;
      } else {
        k, j := 3, i;
      }
    } else {
      if tri.a == p && tri.b == q {
        k, j := 2, i;
      } else if tri.b == p && tri.c == q {
        k, j := 2, nx;
      } else {
        k, j := 4, i;
      }
    }
  }

  /** A triangle of the outer wall (kinds 4 and 5): the triangle that walks each
      of its edges back, always of another kind. */
  lemma CylinderOuterWallTwin(n: nat, kind: nat, i: nat, p: u16, q: u16) returns (k: nat, j: nat)
    requires n <= CYLINDER_MAX_SEGMENTS && (kind == 4 || kind == 5) && i < n
    requires CylinderTri(n, kind, i).HasEdge(p, q)
    ensures k < 8 && j < n && k != kind && CylinderTri(n, k, j).HasEdge(q, p)
  {
    var tri := CylinderTri(n, kind, i);
    var nx, pv := RingNext(i, n), RingPrev(i, n);
    if kind == 4 {
      if tri.a == p && tri.b == q {
        k, j := 5, pv;
      } else if tri.b == p && tri.c == q {
        k, j := 3, i;
      } else {
        k, j := 5, i;
      }
    } else {
      if tri.a == p && tri.b == q {
        k, j := 4, i;
      } else if tri.b == p && tri.c == q {
        k, j := 4, nx;
      } else {
        k, j := 1, i;
      }
    }
  }

  /** A triangle of the wall between the axis rings (kinds 6 and 7): the triangle that walks each
      of its edges back, always of another kind. */
  lemma CylinderAxisWallTwin(n: nat, kind: nat, i: nat, p: u16, q: u16) returns (k: nat, j: nat)
    requires n <= CYLINDER_MAX_SEGMENTS && (kind == 6 || kind == 7) && i < n
    requires CylinderTri(n, kind, i).HasEdge(p, q)
    ensures k < 8 && j < n && k != kind && CylinderTri(n, k, j).HasEdge(q, p)
  {
    var tri := CylinderTri(n, kind, i);
    var nx, pv := RingNext(i, n), RingPrev(i, n);
    if kind == 6 {
      if tri.a == p && tri.b == q {
        k, j := 7, i;
      } else if tri.b == p && tri.c == q {
        k, j := 2, i;
      } else {
        k, j := 7, pv;
      }
    } else {
      if tri.a == p && tri.b == q {
        k, j := 0, i;
      } else if tri.b == p && tri.c == q {
        k, j := 6, nx;
      } else {
        k, j := 6, i;
      }
    }
  }

  /** Every directed edge of a cylinder triangle is walked back by a
      triangle of another kind. */
  lemma CylinderEdgeTwin(n: nat, kind: nat, i: nat, p: u16, q: u16) returns (k: nat, j: nat)
    requires n <= CYLINDER_MAX_SEGMENTS && kind < 8 && i < n
    requires CylinderTri(n, kind, i).HasEdge(p, q)
    ensures k < 8 && j < n && k != kind && CylinderTri(n, k, j).HasEdge(q, p)
  {
    if kind < 2 {
      k, j := CylinderCapTwin(n, kind, i, p, q);
    } else if kind < 4 {
      k, j := CylinderSecondCapTwin(n, kind, i, p, q);
    } else if kind < 6 {
      k, j := CylinderOuterWallTwin(n, kind, i, p, q);
    } else {
      k, j := CylinderAxisWallTwin(n, kind, i, p, q);
    }
  }

  /** The cylinder is a closed surface with consistent winding. */
  lemma CylinderIsClosed(n: nat)
    requires n <= CYLINDER_MAX_SEGMENTS
    ensures ClosedSurface(CylinderTriangles(n))
  {
    var tris := CylinderTriangles(n);
    forall t, p, q | 0 <= t < |tris| && tris[t].HasEdge(p, q)
      ensures exists s :: 0 <= s < |tris| && s != t && tris[s].HasEdge(q, p)
    {
      var kind, i := SlotKind(n, t), SlotSegment(n, t);
      SlotRoundTrip(n, t);
      CylinderTriangleAt(n, kind, i);
      var k, j := CylinderEdgeTwin(n, kind, i, p, q);
      var s := CylinderSlot(n, k, j);
      CylinderTriangleAt(n, k, j);
      SlotOfKind(n, k, j);
      assert tris[s].HasEdge(q, p);
    }
  }

  // -------------------------------------------------------------- sphere

  /** The largest segment count whose indices fit in `u16`: the last index
      is (n + 1)^2 - 1. */
  const SPHERE_MAX_SEGMENTS: nat := 255

  /** The polar angle of row y, `y / segments * PI`, and the azimuth of
      column x, `x / segments * TAU`. */
  function PolarAngle(y: nat, n: nat): real
    requires n > 0
  {
    (y as real / n as real) * PI
  }

  function Azimuth(x: nat, n: nat): real
    requires n > 0
  {
    (x as real / n as real) * TAU
  }

  /** `sin(theta) * cos(phi)` and `sin(theta) * sin(phi)`, named so that the
      solver compares them as terms. */
  function SinCos(theta: real, phi: real, lib: Libm): real {
    lib.Sin(theta) * lib.Cos(phi)
  }

  function SinSin(theta: real, phi: real, lib: Libm): real {
    lib.Sin(theta) * lib.Sin(phi)
  }

  /** The point of the unit sphere at row y, column x: built as a struct
      literal, so not cleaned. */
  function SpherePoint(n: nat, y: nat, x: nat, lib: Libm): Vec3
    requires n > 0
  {
    var theta, phi := PolarAngle(y, n), Azimuth(x, n);
    Vec3(SinCos(theta, phi, lib), lib.Cos(theta), SinSin(theta, phi, lib))
  }

  /** Each vertex's normal is its position, normalized. */
  function SphereVertex(n: nat, y: nat, x: nat, lib: Libm): Vertex
    requires n > 0
  {
    Vertex(SpherePoint(n, y, x, lib), SpherePoint(n, y, x, lib).Normalize(lib))
  }

  /** Row y: columns 0 through n, the last repeating the first angle plus
      a full turn. */
  function SphereRow(n: nat, y: nat, lib: Libm): (r: seq<Vertex>)
    requires n > 0
    ensures |r| == n + 1
  {
    seq(n + 1, x requires 0 <= x <= n => SphereVertex(n, y, x, lib))
  }

  /** The first m rows. */
  function SphereRows(n: nat, m: nat, lib: Libm): (r: seq<Vertex>)
    requires n > 0
    ensures |r| == m * (n + 1)
  {
    if m == 0 then [] else SphereRows(n, m - 1, lib) + SphereRow(n, m - 1, lib)
  }

  /** The vertices `sphere` builds: n + 1 rows of n + 1. */
  function SphereVertices(n: nat, lib: Libm): (r: seq<Vertex>)
    requires n > 0
    ensures |r| == (n + 1) * (n + 1)
  {
    SphereRows(n, n + 1, lib)
  }

  /** Vertex y * (n + 1) + x is column x of row y. */
  lemma {:induction false} SphereRowsAt(n: nat, m: nat, lib: Libm, y: nat, x: nat)
    requires n > 0 && y < m && x <= n
    ensures y * (n + 1) + x < m * (n + 1)
    ensures SphereRows(n, m, lib)[y * (n + 1) + x] == SphereVertex(n, y, x, lib)
  {
    var w := n + 1;
    var before := SphereRows(n, m - 1, lib);
    assert m * w == (m - 1) * w + w;
    assert SphereRows(n, m, lib) == before + SphereRow(n, m - 1, lib);
    if y < m - 1 {
      MulMonotone(y + 1, m - 1, w);
      assert y * w + x < (y + 1) * w;
      SphereRowsAt(n, m - 1, lib, y, x);
    } else {
      assert y * w == (m - 1) * w;
    }
  }

  /** An index below h rows of w splits into a row below h and a column
      below w. */
  lemma SplitIndex(k: nat, w: nat, h: nat)
    requires w > 0 && k < h * w
    ensures k / w < h && k % w < w && k == (k / w) * w + k % w
  {
  }

  /** Every vertex's normal is its own position normalized. */
  lemma SphereNormals(n: nat, lib: Libm)
    requires n > 0
    ensures forall k :: 0 <= k < |SphereVertices(n, lib)| ==>
      SphereVertices(n, lib)[k].normal == SphereVertices(n, lib)[k].position.Normalize(lib)
  {
    var vs := SphereVertices(n, lib);
    forall k | 0 <= k < |vs|
      ensures vs[k].normal == vs[k].position.Normalize(lib)
    {
      SplitIndex(k, n + 1, n + 1);
      SphereRowsAt(n, n + 1, lib, k / (n + 1), k % (n + 1));
    }
  }

  /** When sin 0 = 0 and cos 0 = 1, every vertex of row 0 is the north
      pole. */
  lemma SphereNorthPole(n: nat, lib: Libm)
    requires n > 0 && lib.Sin(0.0) == 0.0 && lib.Cos(0.0) == 1.0
    ensures forall x :: 0 <= x <= n ==> SphereVertices(n, lib)[x].position == Vec3(0.0, 1.0, 0.0)
  {
    forall x | 0 <= x <= n
      ensures SphereVertices(n, lib)[x].position == Vec3(0.0, 1.0, 0.0)
    {
      SphereRowsAt(n, n + 1, lib, 0, x);
      assert PolarAngle(0, n) == 0.0;
    }
  }

  /** When a full turn brings sine and cosine back, the last column of
      every row coincides with the first: the seam is doubled. */
  lemma SphereSeam(n: nat, lib: Libm, y: nat)
    requires n > 0 && y <= n
    requires lib.Sin(TAU) == lib.Sin(0.0) && lib.Cos(TAU) == lib.Cos(0.0)
    ensures y * (n + 1) + n < |SphereVertices(n, lib)|
    ensures SphereVertices(n, lib)[y * (n + 1)] == SphereVertices(n, lib)[y * (n + 1) + n]
  {
    SphereRowsAt(n, n + 1, lib, y, 0);
    SphereRowsAt(n, n + 1, lib, y, n);
    SeamPoints(n, lib, y);
  }

  /** The first and last column of a row name the same point. */
  lemma SeamPoints(n: nat, lib: Libm, y: nat)
    requires n > 0
    requires lib.Sin(TAU) == lib.Sin(0.0) && lib.Cos(TAU) == lib.Cos(0.0)
    ensures SpherePoint(n, y, 0, lib) == SpherePoint(n, y, n, lib)
  {
    FullTurn(n);
    var theta := PolarAngle(y, n);
    assert SinCos(theta, Azimuth(n, n), lib) == SinCos(theta, Azimuth(0, n), lib);
    assert SinSin(theta, Azimuth(n, n), lib) == SinSin(theta, Azimuth(0, n), lib);
  }

  /** Column 0 sits at azimuth 0 and column n at a full turn. */
  lemma FullTurn(n: nat)
    requires n > 0
    ensures Azimuth(0, n) == 0.0 && Azimuth(n, n) == TAU
  {
    assert n as real / n as real == 1.0;
  }

  /** The corners of quad (y, x) stay below (n + 1)^2, which fits in u16. */
  lemma SphereIndexBound(n: nat, y: nat, x: nat)
    requires n <= SPHERE_MAX_SEGMENTS && y < n && x < n
    ensures y * (n + 1) + x + (n + 1) + 1 < (n + 1) * (n + 1) <= 0x1_0000
    ensures y * (n + 1) + x + (n + 1) + 1 < 0x1_0000
  {
    var m := n + 1;
    MulMonotone(y, n - 1, m);
    assert (n - 1) * m + m == n * m;
    assert m * m == n * m + m;
    MulMonotone(m, 256, m);
    MulMonotone(m, 256, 256);
  }

  /** The same bound for the corner i of quad (y, x) in rows of `ring`
      vertices. */
  lemma QuadIndexFits(n: nat, y: nat, x: nat, i: nat, ring: nat)
    requires n <= SPHERE_MAX_SEGMENTS && y < n && x < n
    requires ring == n + 1 && i == y * ring + x
    ensures i + ring + 1 < 0x1_0000
  {
    SphereIndexBound(n, y, x);
  }

  /** Multiplying by a natural number keeps the order. */
  lemma MulMonotone(a: nat, b: nat, c: nat)
    requires a <= b
    ensures a * c <= b * c
  {
  }

  /** The two triangles of quad (y, x), whose first corner is
      i = y * (n + 1) + x. */
  function SphereQuad(n: nat, y: nat, x: nat): (r: seq<Tri>)
    requires n <= SPHERE_MAX_SEGMENTS && y < n && x < n
    ensures |r| == 2
  {
    SphereIndexBound(n, y, x);
    QuadTriangles(y * (n + 1) + x, n + 1)
  }

  /** The two triangles of the quad with first corner i in rows of `ring`
      vertices. */
  function QuadTriangles(i: nat, ring: nat): (r: seq<Tri>)
    requires i + ring + 1 < 0x1_0000
    ensures |r| == 2
  {
    [Tri(i as u16, (i + 1) as u16, (i + ring) as u16), Tri((i + 1) as u16, (i + ring + 1) as u16, (i + ring) as u16)]
  }

  /** The quads of row y that the inner loop emits in its first m passes. */
  function SphereRowQuads(n: nat, y: nat, m: nat): (r: seq<Tri>)
    requires n <= SPHERE_MAX_SEGMENTS && y < n && m <= n
    ensures |r| == 2 * m
  {
    if m == 0 then [] else SphereRowQuads(n, y, m - 1) + SphereQuad(n, y, m - 1)
  }

  /** The triangles of the first m rows of quads. */
  function SphereGrid(n: nat, m: nat): (r: seq<Tri>)
    requires n <= SPHERE_MAX_SEGMENTS && m <= n
    ensures |r| == 2 * n * m
  {
    if m == 0 then [] else SphereGrid(n, m - 1) + SphereRowQuads(n, m - 1, n)
  }

  function SphereTriangles(n: nat): (r: seq<Tri>)
    requires n <= SPHERE_MAX_SEGMENTS
    ensures |r| == 2 * n * n
  {
    SphereGrid(n, n)
  }

  /** Both triangles of a quad name only vertices of the sphere, and they
      walk their shared diagonal, from i + 1 to i + ring, in opposite
      directions. */
  lemma SphereQuadShape(n: nat, y: nat, x: nat)
    requires n <= SPHERE_MAX_SEGMENTS && y < n && x < n
    ensures SphereQuad(n, y, x)[0].Below((n + 1) * (n + 1)) && SphereQuad(n, y, x)[1].Below((n + 1) * (n + 1))
    ensures var i := y * (n + 1) + x;
      SphereQuad(n, y, x)[0].HasEdge((i + 1) as u16, (i + n + 1) as u16) &&
      SphereQuad(n, y, x)[1].HasEdge((i + n + 1) as u16, (i + 1) as u16)
  {
    SphereIndexBound(n, y, x);
  }

  /** Appending quad (y, x), corner by corner, to the indices of the first
      x quads of row y gives the indices of the first x + 1. */
  lemma SphereQuadStep(prefix: seq<u16>, n: nat, y: nat, x: nat, i: nat, ring: nat, before: seq<u16>)
    requires n <= SPHERE_MAX_SEGMENTS && y < n && x < n
    requires ring == n + 1 && i == y * ring + x && i + ring + 1 < 0x1_0000
    requires before == prefix + TriangleIndices(SphereRowQuads(n, y, x))
    ensures before + [i as u16, (i + 1) as u16, (i + ring) as u16] + [(i + 1) as u16, (i + ring + 1) as u16, (i + ring) as u16]
      == prefix + TriangleIndices(SphereRowQuads(n, y, x + 1))
  {
    var quad := SphereQuad(n, y, x);
    assert quad == QuadTriangles(i, ring);
    TriangleIndicesAppend(SphereRowQuads(n, y, x), quad);
    TriangleIndicesOfTwo(quad);
    var first, second := [i as u16, (i + 1) as u16, (i + ring) as u16], [(i + 1) as u16, (i + ring + 1) as u16, (i + ring) as u16];
    AppendAssociates(before, first, second);
    AppendAssociates(prefix, TriangleIndices(SphereRowQuads(n, y, x)), first + second);
  }

  lemma {:induction false} SphereRowQuadsBelow(n: nat, y: nat, m: nat)
    requires n <= SPHERE_MAX_SEGMENTS && y < n && m <= n
    ensures forall t :: 0 <= t < |SphereRowQuads(n, y, m)| ==> SphereRowQuads(n, y, m)[t].Below((n + 1) * (n + 1))
  {
    if m > 0 {
      SphereRowQuadsBelow(n, y, m - 1);
      SphereQuadShape(n, y, m - 1);
    }
  }

  lemma {:induction false} SphereGridBelow(n: nat, m: nat)
    requires n <= SPHERE_MAX_SEGMENTS && m <= n
    ensures forall t :: 0 <= t < |SphereGrid(n, m)| ==> SphereGrid(n, m)[t].Below((n + 1) * (n + 1))
  {
    if m > 0 {
      SphereGridBelow(n, m - 1);
      SphereRowQuadsBelow(n, m - 1, n);
    }
  }

  /** The sphere's index buffer holds 6n^2 indices naming only its
      (n + 1)^2 vertices. */
  lemma SphereIndexBuffer(n: nat)
    requires n <= SPHERE_MAX_SEGMENTS
    ensures |TriangleIndices(SphereTriangles(n))| == 6 * n * n
    ensures ValidTriangles((n + 1) * (n + 1), TriangleIndices(SphereTriangles(n)))
  {
    var tris := SphereTriangles(n);
    assert tris == SphereGrid(n, n);
    SphereGridBelow(n, n);
    TrianglesAreValid(tris, (n + 1) * (n + 1));
    TripleOfDouble(n * n);
  }

  lemma TripleOfDouble(k: int)
    ensures 3 * (2 * k) == 6 * k
  {
  }

  class Mesh {
    var vertices: seq<Vertex>
    var indices: seq<u16>

    /** `Mesh::new`. */
    constructor (vertices: seq<Vertex>, indices: seq<u16>)
      ensures this.vertices == vertices && this.indices == indices
    {
      this.vertices := vertices;
      this.indices := indices;
    }

    /** `Mesh::default`: no vertices and no indices. */
    constructor Default()
      ensures vertices == [] && indices == []
    {
      vertices := [];
      indices := [];
    }

    /** `indices.len() as u32`, which keeps the low 32 bits. */
    function IndexCount(): (r: u32)
      reads this
      ensures |indices| < U32_MODULUS ==> r as int == |indices|
    {
      TruncateU32(|indices|)
    }

    /** `generate_normals`: zero every normal, add each triangle's face
        normal to its three corners, normalize every normal.  Its three
        loops are the three methods below. */
    method GenerateNormals(lib: Libm)
      requires ValidTriangles(|vertices|, indices)
      modifies this
      ensures indices == old(indices)
      ensures vertices == SmoothNormals(old(vertices), indices, lib)
    {
      ResetNormals();
      AccumulateFaceNormals(old(vertices), lib);
      NormalizeEachNormal(lib);
    }

    /** The first loop of `generate_normals`. */
    method ResetNormals()
      modifies this
      ensures indices == old(indices)
      ensures vertices == ZeroNormals(old(vertices))
    {
      for i := 0 to |vertices|
        invariant |vertices| == |old(vertices)| && indices == old(indices)
        invariant forall j :: 0 <= j < i ==> vertices[j] == Vertex(old(vertices)[j].position, Vec3.ZERO)
        invariant forall j :: i <= j < |vertices| ==> vertices[j] == old(vertices)[j]
      {
        vertices := vertices[i := Vertex(vertices[i].position, Vec3.ZERO)];
      }
    }

    /** The middle loop of `generate_normals`, over the triangles in order;
        `original` holds the vertex positions the face normals come from. */
    method AccumulateFaceNormals(ghost original: seq<Vertex>, lib: Libm)
      requires SamePositions(vertices, original) && ValidTriangles(|vertices|, indices)
      modifies this
      ensures indices == old(indices)
      ensures vertices == Accumulated(old(vertices), indices, FaceNormals(original, indices, lib), |indices| / 3)
    {
      ghost var normals := FaceNormals(original, indices, lib);
      for t := 0 to |indices| / 3
        invariant indices == old(indices)
        invariant vertices == Accumulated(old(vertices), indices, normals, t)
      {
        AccumulatedKeepsPositions(old(vertices), indices, normals, t);
        FaceNormalReadsPositions(vertices, original, indices, t, lib);
        AddFaceNormal(t, lib);
      }
    }

    /** One pass of the middle loop: the face normal of triangle t, from
        its two edges out of the first corner, is added to its corners. */
    method AddFaceNormal(t: nat, lib: Libm)
      requires ValidTriangles(|vertices|, indices) && t < |indices| / 3
      modifies this
      ensures indices == old(indices)
      ensures vertices == AccumulateFace(old(vertices), indices, t, FaceNormal(old(vertices), indices, t, lib))
    {
      var i0, i1, i2 := indices[3 * t] as int, indices[3 * t + 1] as int, indices[3 * t + 2] as int;
      var v0, v1, v2 := vertices[i0].position, vertices[i1].position, vertices[i2].position;
      var edge1 := v1.Sub(v0);
      var edge2 := v2.Sub(v0);
      var normal := edge1.Cross(edge2).Normalize(lib);
      ghost var start := vertices;
      assert normal == FaceNormal(start, indices, t, lib);
      vertices := vertices[i0 := Vertex(vertices[i0].position, vertices[i0].normal.Add(normal))];
      assert vertices == AddToNormal(start, Corner(indices, t, 0), normal);
      vertices := vertices[i1 := Vertex(vertices[i1].position, vertices[i1].normal.Add(normal))];
      vertices := vertices[i2 := Vertex(vertices[i2].position, vertices[i2].normal.Add(normal))];
    }

    /** The last loop of `generate_normals`. */
    method NormalizeEachNormal(lib: Libm)
      modifies this
      ensures indices == old(indices)
      ensures vertices == NormalizeNormals(old(vertices), lib)
    {
      for i := 0 to |vertices|
        invariant indices == old(indices) && |vertices| == |old(vertices)|
        invariant forall j :: 0 <= j < i ==> vertices[j] == Vertex(old(vertices)[j].position, old(vertices)[j].normal.Normalize(lib))
        invariant forall j :: i <= j < |vertices| ==> vertices[j] == old(vertices)[j]
      {
        vertices := vertices[i := Vertex(vertices[i].position, vertices[i].normal.Normalize(lib))];
      }
    }

    /** `Mesh::cube`: the unit cube centred on the origin, eight shared
        corners, two triangles per face, smooth normals. */
    static method Cube(lib: Libm) returns (mesh: Mesh)
      ensures fresh(mesh)
      ensures mesh.indices == TriangleIndices(CUBE_TRIANGLES) && ValidTriangles(8, mesh.indices)
      ensures mesh.vertices == SmoothNormals(CubeVertices(), mesh.indices, lib)
    {
      var positions := [
        Vec3.New(-0.5, -0.5, 0.5), Vec3.New(0.5, -0.5, 0.5), Vec3.New(0.5, 0.5, 0.5), Vec3.New(-0.5, 0.5, 0.5),
        Vec3.New(-0.5, -0.5, -0.5), Vec3.New(0.5, -0.5, -0.5), Vec3.New(0.5, 0.5, -0.5), Vec3.New(-0.5, 0.5, -0.5)];
      var vertices := seq(|positions|, i requires 0 <= i < |positions| => Vertex(positions[i], Vec3.ZERO));
      var indices: seq<u16> := [0, 1, 2, 2, 3, 0, 5, 4, 7, 7, 6, 5, 4, 0, 3, 3, 7, 4,
        1, 5, 6, 6, 2, 1, 3, 2, 6, 6, 7, 3, 4, 5, 1, 1, 0, 4];
      CubeIndexLiteral();
      CubeIndexBuffer();
      assert vertices == CubeVertices();
      mesh := new Mesh(vertices, indices);
      mesh.GenerateNormals(lib);
    }

    /** `Mesh::cone`: a cone of height 1 and base radius 0.5 centred on the
        origin, its tip up, with smooth normals. */
    static method Cone(segments: u16, lib: Libm) returns (mesh: Mesh)
      requires segments as nat <= CONE_MAX_SEGMENTS
      ensures fresh(mesh)
      ensures mesh.indices == TriangleIndices(ConeTriangles(segments as nat))
      ensures ValidTriangles(segments as nat + 2, mesh.indices)
      ensures mesh.vertices == SmoothNormals(ConeVertices(segments as nat, lib), mesh.indices, lib)
    {
      var n := segments as nat;
      var vertices := ConeRim(n, lib);
      var indices := ConeFanIndices(n);
      ConeIndexBuffer(n);
      mesh := new Mesh(vertices, indices);
      mesh.GenerateNormals(lib);
    }

    /** The index half of `Mesh::cone`: the side fan, then the base fan. */
    static method ConeFanIndices(n: nat) returns (indices: seq<u16>)
      requires n <= CONE_MAX_SEGMENTS
      ensures indices == TriangleIndices(ConeTriangles(n))
    {
      indices := ConeSideFan(n);
      indices := ConeBaseFan(n, indices);
    }

    /** The first index loop of `Mesh::cone`: the side fan around the tip. */
    static method ConeSideFan(n: nat) returns (indices: seq<u16>)
      requires n <= CONE_MAX_SEGMENTS
      ensures indices == TriangleIndices(ConeTriangles(n)[..n])
    {
      ghost var tris := ConeTriangles(n);
      indices := [];
      for i := 0 to n
        invariant indices == TriangleIndices(tris[..i])
      {
        var next := if i + 1 < n then i + 1 else 0;
        assert tris[i] == Tri(0, (2 + next) as u16, (2 + i) as u16);
        TriangleIndicesSnoc(tris, i);
        indices := indices + [0, (2 + next) as u16, (2 + i) as u16];
      }
    }

    /** The second index loop of `Mesh::cone`: the base fan around the
        base centre, wound the other way. */
    static method ConeBaseFan(n: nat, prefix: seq<u16>) returns (indices: seq<u16>)
      requires n <= CONE_MAX_SEGMENTS
      requires prefix == TriangleIndices(ConeTriangles(n)[..n])
      ensures indices == TriangleIndices(ConeTriangles(n))
    {
      ghost var tris := ConeTriangles(n);
      indices := prefix;
      for i := 0 to n
        invariant indices == TriangleIndices(tris[..n + i])
      {
        var next := if i + 1 < n then i + 1 else 0;
        ConeBaseStep(n, i);
        indices := indices + [1, (2 + i) as u16, (2 + next) as u16];
      }
      assert tris[..2 * n] == tris;
    }

    /** The vertex half of `Mesh::cone`: tip, base centre, then the rim. */
    static method ConeRim(n: nat, lib: Libm) returns (vertices: seq<Vertex>)
      ensures vertices == ConeVertices(n, lib)
    {
      vertices := [Vertex(Vec3.New(0.0, 0.5, 0.0), Vec3.ZERO), Vertex(Vec3.New(0.0, -0.5, 0.0), Vec3.ZERO)];
      for i := 0 to n
        invariant vertices == ConeVertices(n, lib)[..2 + i]
      {
        var theta := i as real / n as real * TAU;
        var x := 0.5 * lib.Cos(theta);
        var z := 0.5 * lib.Sin(theta);
        ghost var all := ConeVertices(n, lib);
        assert theta == RingAngle(i, n);
        assert all[2 + i] == Vertex(Vec3.New(x, -0.5, z), Vec3.ZERO);
        assert all[..2 + i + 1] == all[..2 + i] + [all[2 + i]];
        vertices := vertices + [Vertex(Vec3.New(x, -0.5, z), Vec3.ZERO)];
      }
      assert ConeVertices(n, lib)[..2 + n] == ConeVertices(n, lib);
    }

    /** `Mesh::cylinder`: a cylinder of height 1 and radius 1 centred on the
        origin, built from four rings (an outer ring and an axis ring at
        each end), with smooth normals. */
    static method Cylinder(segments: u16, lib: Libm) returns (mesh: Mesh)
      requires segments as nat <= CYLINDER_MAX_SEGMENTS
      ensures fresh(mesh)
      ensures mesh.indices == TriangleIndices(CylinderTriangles(segments as nat))
      ensures ValidTriangles(4 * segments as nat, mesh.indices)
      ensures mesh.vertices == SmoothNormals(CylinderVertices(segments as nat, lib), mesh.indices, lib)
    {
      var n := segments as nat;
      var vertices := CylinderRingVertices(n, lib);
      var indices := CylinderFirstEnd(n);
      indices := CylinderSecondEnd(n, indices);
      indices := CylinderWalls(n, indices);
      TriangleIndicesAppend(CylinderLoop(n, 0, 2, n), CylinderLoop(n, 2, 2, n));
      TriangleIndicesAppend(CylinderLoop(n, 0, 2, n) + CylinderLoop(n, 2, 2, n), CylinderLoop(n, 4, 4, n));
      CylinderIndexBuffer(n);
      mesh := new Mesh(vertices, indices);
      mesh.GenerateNormals(lib);
    }

    /** The vertex loops of `Mesh::cylinder`: for each height, for each
        radius, one ring. */
    static method CylinderRingVertices(n: nat, lib: Libm) returns (vertices: seq<Vertex>)
      ensures vertices == CylinderVertices(n, lib)
    {
      vertices := [];
      var heights, radii := [-0.5, 0.5], [1.0, 0.0];
      for a := 0 to 2
        invariant vertices == CylinderRings(n, 2 * a, lib)
      {
        for c := 0 to 2
          invariant vertices == CylinderRings(n, 2 * a + c, lib)
        {
          assert heights[a] == RingHeight(2 * a + c) && radii[c] == RingRadius(2 * a + c);
          vertices := AppendRing(vertices, n, heights[a], radii[c], lib);
        }
      }
    }

    /** The innermost vertex loop of `Mesh::cylinder`. */
    static method AppendRing(vertices: seq<Vertex>, n: nat, y: real, r: real, lib: Libm) returns (result: seq<Vertex>)
      ensures result == vertices + CylinderRing(n, y, r, lib)
    {
      ghost var ring := CylinderRing(n, y, r, lib);
      result := vertices;
      for i := 0 to n
        invariant result == vertices + ring[..i]
      {
        var theta := i as real / n as real * TAU;
        var x := r * lib.Cos(theta);
        var z := r * lib.Sin(theta);
        var v := Vertex(Vec3.New(x, y, z), Vec3.ZERO);
        assert v == RingPoint(n, y, r, lib, i) by {
          assert theta == RingAngle(i, n) && x == CircleX(r, theta, lib) && z == CircleZ(r, theta, lib);
        }
        RingPrefixStep(n, y, r, lib, i);
        result := result + [v];
      }
      assert ring[..n] == ring;
    }

    /** One more point of the ring extends its prefix by that point. */
    static lemma RingPrefixStep(n: nat, y: real, r: real, lib: Libm, i: nat)
      requires i < n
      ensures CylinderRing(n, y, r, lib)[..i + 1] == CylinderRing(n, y, r, lib)[..i] + [RingPoint(n, y, r, lib, i)]
    {
      var ring := CylinderRing(n, y, r, lib);
      assert ring[i] == RingPoint(n, y, r, lib, i);
      assert ring[..i + 1] == ring[..i] + [ring[i]];
    }

    /** The first index loop of `Mesh::cylinder`: two triangles per segment
        between the outer and axis rings at y = -0.5. */
    static method CylinderFirstEnd(n: nat) returns (indices: seq<u16>)
      requires n <= CYLINDER_MAX_SEGMENTS
      ensures indices == TriangleIndices(CylinderLoop(n, 0, 2, n))
    {
      indices := [];
      for i := 0 to n
        invariant indices == TriangleIndices(CylinderLoop(n, 0, 2, i))
      {
        var next := RingNext(i, n);
        var outerTop, innerTop := i as u16, (n + i) as u16;
        var outerTopNext, innerTopNext := next as u16, (n + next) as u16;
        ghost var segment := CylinderSegment(n, 0, 2, i);
        CylinderLoopStep(n, 0, 2, i);
        TriangleIndicesOfTwo(segment);
        assert segment[0] == Tri(outerTop, innerTopNext, innerTop);
        assert segment[1] == Tri(outerTop, outerTopNext, innerTopNext);
        ghost var before := indices;
        var first, second := [outerTop, innerTopNext, innerTop], [outerTop, outerTopNext, innerTopNext];
        indices := indices + first;
        indices := indices + second;
        AppendAssociates(before, first, second);
      }
    }

    /** The second index loop: the same pair at y = 0.5, wound the other
        way, from `base = 2 * segments`. */
    static method CylinderSecondEnd(n: nat, prefix: seq<u16>) returns (indices: seq<u16>)
      requires n <= CYLINDER_MAX_SEGMENTS
      ensures indices == prefix + TriangleIndices(CylinderLoop(n, 2, 2, n))
    {
      var base := 2 * n;
      indices := prefix;
      for i := 0 to n
        invariant indices == prefix + TriangleIndices(CylinderLoop(n, 2, 2, i))
      {
        var next := RingNext(i, n);
        var outerBottom, innerBottom := (base + i) as u16, (base + n + i) as u16;
        var outerBottomNext, innerBottomNext := (base + next) as u16, (base + n + next) as u16;
        ghost var segment := CylinderSegment(n, 2, 2, i);
        CylinderLoopStep(n, 2, 2, i);
        TriangleIndicesOfTwo(segment);
        assert segment[0] == Tri(outerBottom, innerBottom, innerBottomNext);
        assert segment[1] == Tri(outerBottom, innerBottomNext, outerBottomNext);
        ghost var before := indices;
        var first, second := [outerBottom, innerBottom, innerBottomNext], [outerBottom, innerBottomNext, outerBottomNext];
        indices := indices + first;
        indices := indices + second;
        AppendAssociates(before, first, second);
        AppendAssociates(prefix, TriangleIndices(CylinderLoop(n, 2, 2, i)), first + second);
      }
    }

    /** The third index loop: per segment two triangles of the outer wall
        and two between the axis rings. */
    static method CylinderWalls(n: nat, prefix: seq<u16>) returns (indices: seq<u16>)
      requires n <= CYLINDER_MAX_SEGMENTS
      ensures indices == prefix + TriangleIndices(CylinderLoop(n, 4, 4, n))
    {
      var base := 2 * n;
      indices := prefix;
      for i := 0 to n
        invariant indices == prefix + TriangleIndices(CylinderLoop(n, 4, 4, i))
      {
        var next := RingNext(i, n);
        var outerTop, outerBottom := i as u16, (base + i) as u16;
        var outerTopNext, outerBottomNext := next as u16, (base + next) as u16;
        var innerTop, innerBottom := (n + i) as u16, (base + n + i) as u16;
        var innerTopNext, innerBottomNext := (n + next) as u16, (base + n + next) as u16;
        ghost var before := indices;
        indices := indices + [outerTop, outerBottom, outerBottomNext];
        indices := indices + [outerTop, outerBottomNext, outerTopNext];
        indices := indices + [innerTop, innerBottomNext, innerBottom];
        indices := indices + [innerTop, innerTopNext, innerBottomNext];
        CylinderWallsStep(n, prefix, i, before);
      }
    }

    /** `Mesh::sphere`: a unit sphere of n + 1 rows of n + 1 vertices,
        normals pointing outwards, two triangles per quad. The mesh is built
        directly, without `generate_normals`. */
    static method Sphere(segments: u16, lib: Libm) returns (mesh: Mesh)
      requires 1 <= segments as nat <= SPHERE_MAX_SEGMENTS
      ensures fresh(mesh)
      ensures mesh.vertices == SphereVertices(segments as nat, lib)
      ensures mesh.indices == TriangleIndices(SphereTriangles(segments as nat))
      ensures |mesh.indices| == 6 * segments as nat * segments as nat
      ensures ValidTriangles(|mesh.vertices|, mesh.indices)
    {
      var n := segments as nat;
      var vertices := SphereRowVertices(n, lib);
      var indices := SphereQuadIndices(n);
      SphereIndexBuffer(n);
      mesh := new Mesh(vertices, indices);
    }

    /** The vertex loops of `Mesh::sphere`, row by row. */
    static method SphereRowVertices(n: nat, lib: Libm) returns (vertices: seq<Vertex>)
      requires n > 0
      ensures vertices == SphereVertices(n, lib)
    {
      vertices := [];
      for y := 0 to n + 1
        invariant vertices == SphereRows(n, y, lib)
      {
        var v := y as real / n as real;
        var theta := v * PI;
        vertices := AppendSphereRow(vertices, n, y, theta, lib);
      }
    }

    /** The inner vertex loop of `Mesh::sphere`: the n + 1 vertices of row y
        at polar angle theta. */
    static method AppendSphereRow(vertices: seq<Vertex>, n: nat, y: nat, theta: real, lib: Libm) returns (result: seq<Vertex>)
      requires n > 0 && theta == PolarAngle(y, n)
      ensures result == vertices + SphereRow(n, y, lib)
    {
      ghost var row := SphereRow(n, y, lib);
      result := vertices;
      for x := 0 to n + 1
        invariant result == vertices + row[..x]
      {
        var vertex := SphereVertexAt(n, y, x, theta, lib);
        assert row[..x + 1] == row[..x] + [row[x]];
        result := result + [vertex];
      }
      assert row[..n + 1] == row;
    }

    /** The body of the inner vertex loop of `Mesh::sphere`: the point at
        polar angle theta and azimuth x / n * TAU, whose normal is itself
        normalized. */
    static method SphereVertexAt(n: nat, y: nat, x: nat, theta: real, lib: Libm) returns (vertex: Vertex)
      requires n > 0 && theta == PolarAngle(y, n)
      ensures vertex == SphereVertex(n, y, x, lib)
    {
      var u := x as real / n as real;
      var phi := u * TAU;
      var sinTheta, cosTheta := lib.Sin(theta), lib.Cos(theta);
      var sinPhi, cosPhi := lib.Sin(phi), lib.Cos(phi);
      var pos := Vec3(sinTheta * cosPhi, cosTheta, sinTheta * sinPhi);
      assert pos == SpherePoint(n, y, x, lib) by {
        assert phi == Azimuth(x, n);
        assert sinTheta * cosPhi == SinCos(theta, phi, lib) && sinTheta * sinPhi == SinSin(theta, phi, lib);
      }
      var normal := pos.Normalize(lib);
      vertex := Vertex(pos, normal);
    }

    /** The index loops of `Mesh::sphere`: for each row of quads, for each
        quad, two triangles sharing the diagonal from i + 1 to i + ring. */
    static method SphereQuadIndices(n: nat) returns (indices: seq<u16>)
      requires n <= SPHERE_MAX_SEGMENTS
      ensures indices == TriangleIndices(SphereTriangles(n))
    {
      indices := [];
      for y := 0 to n
        invariant indices == TriangleIndices(SphereGrid(n, y))
      {
        indices := AppendQuadRow(indices, n, y);
        TriangleIndicesAppend(SphereGrid(n, y), SphereRowQuads(n, y, n));
      }
    }

    /** The inner index loop of `Mesh::sphere`: the quads of row y. */
    static method AppendQuadRow(prefix: seq<u16>, n: nat, y: nat) returns (indices: seq<u16>)
      requires n <= SPHERE_MAX_SEGMENTS && y < n
      ensures indices == prefix + TriangleIndices(SphereRowQuads(n, y, n))
    {
      var ring := n + 1;
      indices := prefix;
      for x := 0 to n
        invariant indices == prefix + TriangleIndices(SphereRowQuads(n, y, x))
      {
        var i := y * ring + x;
        QuadIndexFits(n, y, x, i, ring);
        ghost var before := indices;
        indices := indices + [i as u16, (i + 1) as u16, (i + ring) as u16];
        indices := indices + [(i + 1) as u16, (i + ring + 1) as u16, (i + ring) as u16];
        SphereQuadStep(prefix, n, y, x, i, ring, before);
      }
    }
  }
}
