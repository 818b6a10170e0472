/** The CPU side of `create_renderable_mesh` (src/engine/factory.rs): the
    index buffer is cut into triples, each triple becomes a triangle of
    copied vertex coordinates, and the draw count is chosen. */
module Factory {
  import opened Numeric
  import opened Coordinates

  datatype Option<T> = None | Some(value: T)

  /** `Triangle` of src/engine/objects/shapes.rs, its corners held as the
      coordinates `Vec3::new` copies. */
  datatype Triangle = Triangle(v0: Coords, v1: Coords, v2: Coords)

  /** What the factory computes without a GPU: the triangle list of the
      `shapes::Mesh` and the draw count. */
  datatype MeshData = MeshData(triangles: seq<Triangle>, indexCount: u32)

  /** `chunks(3)` must yield only full triples, and every index must name
      a vertex: otherwise the indexing panics. */
  predicate IndicesFit(vertexCount: nat, indices: seq<u16>) {
    |indices| % 3 == 0 && forall i :: 0 <= i < |indices| ==> (indices[i] as int) < vertexCount
  }

  /** The triangle built from the first triple of `indices`. */
  function TriangleOf(vertices: seq<Coords>, indices: seq<u16>): Triangle
    requires |indices| >= 3 && IndicesFit(|vertices|, indices[..3])
  {
    Triangle(vertices[indices[0]], vertices[indices[1]], vertices[indices[2]])
  }

  lemma IndicesFitTail(vertexCount: nat, indices: seq<u16>)
    requires |indices| >= 3 && IndicesFit(vertexCount, indices)
    ensures IndicesFit(vertexCount, indices[..3]) && IndicesFit(vertexCount, indices[3..])
  {
    assert forall i :: 0 <= i < |indices[3..]| ==> indices[3..][i] == indices[i + 3];
  }

  /** The triangles of `indices.chunks(3)`, in order: one per triple, and
      triangle k has the vertices the k-th triple names. */
  function Triangles(vertices: seq<Coords>, indices: seq<u16>): (r: seq<Triangle>)
    requires IndicesFit(|vertices|, indices)
    ensures |r| == |indices| / 3
    ensures forall k :: 0 <= k < |r| ==>
      r[k] == Triangle(vertices[indices[3 * k]], vertices[indices[3 * k + 1]], vertices[indices[3 * k + 2]])
    decreases |indices|
  {
    if |indices| == 0 then []
    else
      IndicesFitTail(|vertices|, indices);
      var rest := Triangles(vertices, indices[3..]);
      assert forall k :: 1 <= k <= |rest| ==> 3 * k == 3 * (k - 1) + 3;
      [TriangleOf(vertices, indices)] + rest
  }

  /** The corners of a triangle list, in order. */
  function Corners(triangles: seq<Triangle>): (r: seq<Coords>)
    ensures |r| == 3 * |triangles|
  {
    if triangles == [] then []
    else [triangles[0].v0, triangles[0].v1, triangles[0].v2] + Corners(triangles[1..])
  }

  /** Reading the triangles back corner by corner gives the vertices the
      index buffer names, one per index: grouping loses and reorders
      nothing. */
  lemma {:induction false} CornersOfTriangles(vertices: seq<Coords>, indices: seq<u16>)
    requires IndicesFit(|vertices|, indices)
    ensures Corners(Triangles(vertices, indices)) == seq(|indices|, i requires 0 <= i < |indices| => vertices[indices[i]])
    decreases |indices|
  {
    if |indices| > 0 {
      IndicesFitTail(|vertices|, indices);
      CornersOfTriangles(vertices, indices[3..]);
      var tris := Triangles(vertices, indices);
      assert tris[1..] == Triangles(vertices, indices[3..]);
    }
  }

  /** `create_renderable_mesh` without the GPU buffers.  With indices the
      triangles follow the triples and the draw count is the number of
      indices; without them there are no triangles and the draw count is
      the number of vertices.  Both counts go through `as u32`. */
  function CreateRenderableMesh(vertices: seq<Coords>, indices: Option<seq<u16>>): (r: MeshData)
    requires indices.Some? ==> IndicesFit(|vertices|, indices.value)
    ensures indices.Some? ==> |r.triangles| * 3 == |indices.value|
    ensures indices.Some? ==> forall k :: 0 <= k < |r.triangles| ==>
      r.triangles[k] == Triangle(vertices[indices.value[3 * k]], vertices[indices.value[3 * k + 1]],
        vertices[indices.value[3 * k + 2]])
    ensures indices.Some? ==>
      Corners(r.triangles) == seq(|indices.value|, i requires 0 <= i < |indices.value| => vertices[indices.value[i]])
    ensures indices.None? ==> r.triangles == []
    ensures indices.Some? && |indices.value| < U32_MODULUS ==> r.indexCount as int == |indices.value|
    ensures indices.None? && |vertices| < U32_MODULUS ==> r.indexCount as int == |vertices|
  {
    match indices
    case Some(idx) =>
      CornersOfTriangles(vertices, idx);
      MeshData(Triangles(vertices, idx), TruncateU32(|idx|))
    case None => MeshData([], TruncateU32(|vertices|))
  }
}
