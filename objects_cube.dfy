/** `create_cube` of src/engine/objects.rs: the eight corners of the unit
    cube centred on the origin and a line list of its twelve edges, over the
    `Mesh` record of src/engine/primitives.rs. */
module ObjectsCube {
  import opened Numeric
  import opened EnginePrimitives

  /** The corner positions, back face first (z = -0.5), then front. */
  const CUBE_CORNERS: seq<Vec3> := [
    Vec3(-0.5, -0.5, -0.5), Vec3(0.5, -0.5, -0.5), Vec3(0.5, 0.5, -0.5), Vec3(-0.5, 0.5, -0.5),
    Vec3(-0.5, -0.5, 0.5), Vec3(0.5, -0.5, 0.5), Vec3(0.5, 0.5, 0.5), Vec3(-0.5, 0.5, 0.5)]

  /** The back ring, the front ring, then the four edges joining them. */
  const CUBE_EDGE_LIST: seq<u32> := [
    0, 1, 1, 2, 2, 3, 3, 0,
    4, 5, 5, 6, 6, 7, 7, 4,
    0, 4, 1, 5, 2, 6, 3, 7]

  function CreateCube(): (m: Mesh)
    ensures |m.vertices| == 8 && |m.indices| == 24
    ensures forall i :: 0 <= i < |m.indices| ==> m.indices[i] < 8
  {
    Mesh.New(CUBE_CORNERS, CUBE_EDGE_LIST)
  }

  /** Edge k of a line list: indices 2k and 2k + 1. */
  function EdgeStart(indices: seq<u32>, k: nat): u32
    requires 2 * k + 1 < |indices|
  {
    indices[2 * k]
  }

  function EdgeEnd(indices: seq<u32>, k: nat): u32
    requires 2 * k + 1 < |indices|
  {
    indices[2 * k + 1]
  }

  /** 1 when edge k has v as an endpoint. */
  function Touches(indices: seq<u32>, k: nat, v: u32): nat
    requires 2 * k + 1 < |indices|
  {
    if EdgeStart(indices, k) == v || EdgeEnd(indices, k) == v then 1 else 0
  }

  /** How many of the first k edges touch vertex v. */
  function EdgesAt(indices: seq<u32>, k: nat, v: u32): (r: nat)
    requires 2 * k <= |indices|
    ensures r <= k
  {
    if k == 0 then 0 else EdgesAt(indices, k - 1, v) + Touches(indices, k - 1, v)
  }

  /** The literal values of the line list, one by one. */
  lemma EdgeListValues()
    ensures var es := CUBE_EDGE_LIST;
      es[0] == 0 && es[1] == 1 && es[2] == 1 && es[3] == 2 && es[4] == 2 && es[5] == 3 && es[6] == 3 && es[7] == 0 &&
      es[8] == 4 && es[9] == 5 && es[10] == 5 && es[11] == 6 && es[12] == 6 && es[13] == 7 && es[14] == 7 && es[15] == 4 &&
      es[16] == 0 && es[17] == 4 && es[18] == 1 && es[19] == 5 && es[20] == 2 && es[21] == 6 && es[22] == 3 && es[23] == 7
  {
    TopEdgeValues();
    BottomEdgeValues();
    SideEdgeValues();
  }

  lemma TopEdgeValues()
    ensures var es := CUBE_EDGE_LIST;
      es[0] == 0 && es[1] == 1 && es[2] == 1 && es[3] == 2 && es[4] == 2 && es[5] == 3 && es[6] == 3 && es[7] == 0
  {
  }

  lemma BottomEdgeValues()
    ensures var es := CUBE_EDGE_LIST;
      es[8] == 4 && es[9] == 5 && es[10] == 5 && es[11] == 6 && es[12] == 6 && es[13] == 7 && es[14] == 7 && es[15] == 4
  {
  }

  lemma SideEdgeValues()
    ensures var es := CUBE_EDGE_LIST;
      es[16] == 0 && es[17] == 4 && es[18] == 1 && es[19] == 5 && es[20] == 2 && es[21] == 6 && es[22] == 3 && es[23] == 7
  {
  }

  /** The number of coordinates in which two points differ. */
  function DifferingCoordinates(a: Vec3, b: Vec3): (r: nat)
    ensures r <= 3
    ensures r == 0 <==> a == b
  {
    (if a.x != b.x then 1 else 0) + (if a.y != b.y then 1 else 0) + (if a.z != b.z then 1 else 0)
  }

  /** Edge k joins distinct corners that differ in exactly one coordinate,
      by exactly the side length 1. */
  lemma CubeEdgeIsCubeEdge(k: nat)
    requires k < 12
    ensures EdgeStart(CreateCube().indices, k) != EdgeEnd(CreateCube().indices, k)
    ensures var a, b := CreateCube().vertices[EdgeStart(CreateCube().indices, k)],
        CreateCube().vertices[EdgeEnd(CreateCube().indices, k)];
      DifferingCoordinates(a, b) == 1 && Abs(a.x - b.x) + Abs(a.y - b.y) + Abs(a.z - b.z) == 1.0
  {
    var vs, es := CUBE_CORNERS, CUBE_EDGE_LIST;
    var a, b := es[2 * k], es[2 * k + 1];
    if k < 4 {
      TopEdgeValues();
      assert a < 4 && b < 4 && (b == a + 1 || (a == 3 && b == 0)) by {
        assert k == 0 || k == 1 || k == 2 || k == 3;
      }
    } else if k < 8 {
      BottomEdgeValues();
      assert 4 <= a < 8 && 4 <= b < 8 && (b == a + 1 || (a == 7 && b == 4)) by {
        assert k == 4 || k == 5 || k == 6 || k == 7;
      }
    } else {
      SideEdgeValues();
      assert a < 4 && b == a + 4 by {
        assert k == 8 || k == 9 || k == 10 || k == 11;
      }
    }
  }

  /** The position in the line list of the edge joining corners a and b,
      whichever way round they are given: the back ring, the front ring,
      then the joining edges. */
  function EdgeSlot(a: u32, b: u32): nat {
    var lo, hi := if a <= b then a else b, if a <= b then b else a;
    if hi < 4 then (if lo == 0 && hi == 3 then 3 else lo as nat)
    else if 4 <= lo then (if lo == 4 && hi == 7 then 7 else lo as nat)
    else lo as nat + 8
  }

  /** Each edge's endpoints, in either order, lead back to its own slot. */
  lemma EdgeSlotOf(k: nat)
    requires k < 12
    ensures var es := CUBE_EDGE_LIST;
      EdgeSlot(es[2 * k], es[2 * k + 1]) == k && EdgeSlot(es[2 * k + 1], es[2 * k]) == k
  {
    if k < 4 {
      TopEdgeValues();
      assert k == 0 || k == 1 || k == 2 || k == 3;
    } else if k < 8 {
      BottomEdgeValues();
      assert k == 4 || k == 5 || k == 6 || k == 7;
    } else {
      SideEdgeValues();
      assert k == 8 || k == 9 || k == 10 || k == 11;
    }
  }

  /** No edge is listed twice, in either direction. */
  lemma CubeEdgesAreDistinct(k: nat, l: nat)
    requires k < l < 12
    ensures var es := CreateCube().indices;
      (EdgeStart(es, k), EdgeEnd(es, k)) != (EdgeStart(es, l), EdgeEnd(es, l)) &&
      (EdgeStart(es, k), EdgeEnd(es, k)) != (EdgeEnd(es, l), EdgeStart(es, l))
  {
    EdgeSlotOf(k);
    EdgeSlotOf(l);
  }

  /** Counting the edges at v one edge at a time. */
  lemma EdgesAtTwelve(v: u32)
    ensures var es := CUBE_EDGE_LIST;
      EdgesAt(es, 12, v) == Touches(es, 0, v) + Touches(es, 1, v) + Touches(es, 2, v) + Touches(es, 3, v)
        + Touches(es, 4, v) + Touches(es, 5, v) + Touches(es, 6, v) + Touches(es, 7, v)
        + Touches(es, 8, v) + Touches(es, 9, v) + Touches(es, 10, v) + Touches(es, 11, v)
  {
    var es := CUBE_EDGE_LIST;
    assert EdgesAt(es, 1, v) == Touches(es, 0, v);
    assert EdgesAt(es, 2, v) == EdgesAt(es, 1, v) + Touches(es, 1, v);
    assert EdgesAt(es, 3, v) == EdgesAt(es, 2, v) + Touches(es, 2, v);
    assert EdgesAt(es, 4, v) == EdgesAt(es, 3, v) + Touches(es, 3, v);
    assert EdgesAt(es, 5, v) == EdgesAt(es, 4, v) + Touches(es, 4, v);
    assert EdgesAt(es, 6, v) == EdgesAt(es, 5, v) + Touches(es, 5, v);
    assert EdgesAt(es, 7, v) == EdgesAt(es, 6, v) + Touches(es, 6, v);
    assert EdgesAt(es, 8, v) == EdgesAt(es, 7, v) + Touches(es, 7, v);
    assert EdgesAt(es, 9, v) == EdgesAt(es, 8, v) + Touches(es, 8, v);
    assert EdgesAt(es, 10, v) == EdgesAt(es, 9, v) + Touches(es, 9, v);
    assert EdgesAt(es, 11, v) == EdgesAt(es, 10, v) + Touches(es, 10, v);
  }

  /** Every corner is an endpoint of exactly three edges. */
  lemma CubeCornersHaveDegreeThree(v: u32)
    requires v < 8
    ensures EdgesAt(CreateCube().indices, 12, v) == 3
  {
    EdgesAtTwelve(v);
    EdgeListValues();
    if v < 4 {
      assert v == 0 || v == 1 || v == 2 || v == 3;
    } else {
      assert v == 4 || v == 5 || v == 6 || v == 7;
    }
  }
}
