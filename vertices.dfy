/**
 * The vertex side of the converter: get_vertex_index, which merges points
 * that lie within tolerance of an earlier one, flatten_vertices, which writes
 * the (x, z, -y) vertex buffer, and the face sequence that make_geometries
 * and make_shade_geometries build from a triangulation.
 */
module Vertices {
  import opened Wrappers

  /** An OpenStudio::Point3d. */
  datatype Point3 = Point3(x: real, y: real, z: real)

  /** One polygon of a triangulation, already in site coordinates; three points from the kernel. */
  type Triangle = seq<Point3>

  /** The merge test `OpenStudio::getDistance(p, q) < tol`, supplied by the caller. */
  type Closeness = (Point3, Point3) -> bool

  /** Position `index` of `points` stands for `v`: it is `v` itself or within tolerance of it. */
  predicate Represents(points: seq<Point3>, index: nat, v: Point3, close: Closeness)
  {
    index < |points| && (points[index] == v || close(v, points[index]))
  }

  /** No stored point is within tolerance of an earlier one. */
  predicate Separated(points: seq<Point3>, close: Closeness)
  {
    forall i, j :: 0 <= i < j < |points| ==> !close(points[j], points[i])
  }

  /** The first position, in insertion order, whose point is within tolerance of `v`. */
  function FirstClose(points: seq<Point3>, v: Point3, close: Closeness): (r: Option<nat>)
    ensures r.Some? ==> r.value < |points| && close(v, points[r.value])
    ensures r.Some? ==> forall j :: 0 <= j < r.value ==> !close(v, points[j])
    ensures r.None? ==> forall j :: 0 <= j < |points| ==> !close(v, points[j])
    decreases |points|
  {
    if points == [] then None
    else if close(v, points[0]) then Some(0)
    else match FirstClose(points[1..], v, close)
      case None => None
      case Some(i) => Some(i + 1)
  }

  /** What get_vertex_index returns, and the list it leaves behind. */
  datatype Indexed = Indexed(index: nat, points: seq<Point3>)

  /**
   * get_vertex_index on a list holding `points`: the first match in scan
   * order with the list unchanged, or else `v` appended at the old length.
   */
  function VertexIndex(points: seq<Point3>, v: Point3, close: Closeness): (r: Indexed)
    ensures r.index < |r.points| && Represents(r.points, r.index, v, close)
    ensures |points| <= |r.points| <= |points| + 1 && r.points[..|points|] == points
    ensures forall j :: 0 <= j < r.index && j < |points| ==> !close(v, points[j])
    ensures (exists j :: 0 <= j < |points| && close(v, points[j])) <==> r.points == points
    ensures r.points == points ==> close(v, points[r.index])
    ensures r.points != points ==> r.points == points + [v] && r.index == |points|
    ensures Separated(points, close) ==> Separated(r.points, close)
  {
    match FirstClose(points, v, close)
    case Some(i) => Indexed(i, points)
    case None => Indexed(|points|, points + [v])
  }

  /**
   * Looking the same point up again, once it is stored, finds the same
   * position and changes nothing (for a tolerance test that holds of a
   * point and itself, as a distance below a positive tolerance does).
   */
  lemma VertexIndexIdempotent(points: seq<Point3>, v: Point3, close: Closeness)
    requires close(v, v)
    ensures var first := VertexIndex(points, v, close);
            VertexIndex(first.points, v, close) == first
  {
    var first := VertexIndex(points, v, close);
    if first.points != points {
      assert forall j :: 0 <= j < |points| ==> first.points[j] == points[j];
      assert close(v, first.points[|points|]);
    }
  }

  /** A Ruby array of points that get_vertex_index appends to in place. */
  class VertexList {
    var points: seq<Point3>

    constructor ()
      ensures points == []
    {
      points := [];
    }
  }

  /**
   * get_vertex_index (tolerance test `close`): scan `vertices` in order and
   * return the first position within tolerance; otherwise append `vertex`
   * and return its position.
   */
  method GetVertexIndex(vertex: Point3, vertices: VertexList, close: Closeness) returns (i: nat)
    modifies vertices
    ensures Indexed(i, vertices.points) == VertexIndex(old(vertices.points), vertex, close)
  {
    var k := 0;
    while k < |vertices.points|
      invariant 0 <= k <= |vertices.points|
      invariant vertices.points == old(vertices.points)
      invariant forall j :: 0 <= j < k ==> !close(vertex, vertices.points[j])
    {
      if close(vertex, vertices.points[k]) {
        return k;
      }
      k := k + 1;
    }
    vertices.points := vertices.points + [vertex];
    i := |vertices.points| - 1;
  }

  /** flatten_vertices: each point becomes (x, z, -y) in the flat buffer. */
  function Flatten(points: seq<Point3>): (r: seq<real>)
    ensures |r| == 3 * |points|
    decreases |points|
  {
    if points == [] then []
    else
      var p := points[|points| - 1];
      Flatten(points[..|points| - 1]) + [p.x, p.z, -p.y]
  }

  /** Positions 3i, 3i+1 and 3i+2 of the buffer hold x, z and -y of point i. */
  lemma {:induction false} FlattenAt(points: seq<Point3>, i: nat)
    requires i < |points|
    ensures var r := Flatten(points);
            r[3 * i] == points[i].x && r[3 * i + 1] == points[i].z && r[3 * i + 2] == -points[i].y
    decreases |points|
  {
    var front := points[..|points| - 1];
    if i < |front| {
      FlattenAt(front, i);
      assert front[i] == points[i];
    }
  }

  /** The inverse axis change, (a, b, c) back to the point (a, -c, b). */
  function Unflatten(r: seq<real>): seq<Point3>
    requires |r| % 3 == 0
    decreases |r|
  {
    if r == [] then []
    else Unflatten(r[..|r| - 3]) + [Point3(r[|r| - 3], -r[|r| - 1], r[|r| - 2])]
  }

  /** The flat buffer determines the points: unflattening recovers them exactly. */
  lemma {:induction false} UnflattenFlatten(points: seq<Point3>)
    ensures Unflatten(Flatten(points)) == points
    decreases |points|
  {
    if points != [] {
      var r := Flatten(points);
      var front := points[..|points| - 1];
      assert r[..|r| - 3] == Flatten(front);
      UnflattenFlatten(front);
    }
  }

  /** Every buffer of whole triples is the flattening of some points. */
  lemma {:induction false} FlattenUnflatten(r: seq<real>)
    requires |r| % 3 == 0
    ensures Flatten(Unflatten(r)) == r
    decreases |r|
  {
    if r != [] {
      var points := Unflatten(r);
      assert points[..|points| - 1] == Unflatten(r[..|r| - 3]);
      FlattenUnflatten(r[..|r| - 3]);
      assert r == r[..|r| - 3] + [r[|r| - 3], r[|r| - 2], r[|r| - 1]];
    }
  }

  /** flatten_vertices, as the loop that pushes three numbers per point. */
  method FlattenVertices(vertices: seq<Point3>) returns (result: seq<real>)
    ensures result == Flatten(vertices)
  {
    result := [];
    for i := 0 to |vertices|
      invariant result == Flatten(vertices[..i])
    {
      assert vertices[..i + 1][..i] == vertices[..i];
      var vertex := vertices[i];
      result := result + [vertex.x, vertex.z, -vertex.y];
    }
    assert vertices[..|vertices|] == vertices;
  }

  /** The vertex list and face sequence of one geometry while it is being built. */
  datatype Mesh = Mesh(points: seq<Point3>, faces: seq<nat>)

  /** Pushes one index per vertex, each from get_vertex_index on the growing list. */
  function AddVertices(m: Mesh, vs: seq<Point3>, close: Closeness): Mesh
    decreases |vs|
  {
    if vs == [] then m
    else
      var prev := AddVertices(m, vs[..|vs| - 1], close);
      var ix := VertexIndex(prev.points, vs[|vs| - 1], close);
      Mesh(ix.points, prev.faces + [ix.index])
  }

  /** One triangle: the marker 0 ("triangle, no normals"), then its vertices' indices. */
  function AddTriangle(m: Mesh, t: Triangle, close: Closeness): Mesh
  {
    AddVertices(Mesh(m.points, m.faces + [0]), t, close)
  }

  /** The face loop of make_geometries: all triangles, in order, from an empty list. */
  function IndexTriangles(triangles: seq<Triangle>, close: Closeness): Mesh
    decreases |triangles|
  {
    if triangles == [] then Mesh([], [])
    else AddTriangle(IndexTriangles(triangles[..|triangles| - 1], close), triangles[|triangles| - 1], close)
  }

  /** Every corner of every triangle, in order. */
  function Corners(triangles: seq<Triangle>): seq<Point3>
    decreases |triangles|
  {
    if triangles == [] then [] else Corners(triangles[..|triangles| - 1]) + triangles[|triangles| - 1]
  }

  /**
   * `r` keeps the faces and points of `m` and pushes one face entry per
   * vertex of `vs` that stands for that vertex.
   */
  predicate Extends(m: Mesh, r: Mesh, vs: seq<Point3>, close: Closeness)
  {
    && |r.faces| == |m.faces| + |vs| && r.faces[..|m.faces|] == m.faces
    && |m.points| <= |r.points| && r.points[..|m.points|] == m.points
    && forall b :: 0 <= b < |vs| ==> Represents(r.points, r.faces[|m.faces| + b], vs[b], close)
  }

  /** Adding vertices extends the mesh by one entry per vertex. */
  lemma {:induction false} AddVerticesExtends(m: Mesh, vs: seq<Point3>, close: Closeness)
    ensures Extends(m, AddVertices(m, vs, close), vs, close)
    decreases |vs|
  {
    if vs != [] {
      var front := vs[..|vs| - 1];
      AddVerticesExtends(m, front, close);
      var prev := AddVertices(m, front, close);
      var ix := VertexIndex(prev.points, vs[|vs| - 1], close);
      ExtendsStep(m, prev, Mesh(ix.points, prev.faces + [ix.index]), vs, close);
    }
  }

  /** The induction step of the lemma above: one more vertex, on mesh values. */
  lemma ExtendsStep(m: Mesh, prev: Mesh, r: Mesh, vs: seq<Point3>, close: Closeness)
    requires vs != [] && Extends(m, prev, vs[..|vs| - 1], close)
    requires |r.faces| == |prev.faces| + 1 && r.faces[..|prev.faces|] == prev.faces
    requires |prev.points| <= |r.points| && r.points[..|prev.points|] == prev.points
    requires Represents(r.points, r.faces[|prev.faces|], vs[|vs| - 1], close)
    ensures Extends(m, r, vs, close)
  {
    var front := vs[..|vs| - 1];
    assert r.faces[..|m.faces|] == prev.faces[..|m.faces|];
    assert r.points[..|m.points|] == prev.points[..|m.points|];
    forall b | 0 <= b < |vs|
      ensures Represents(r.points, r.faces[|m.faces| + b], vs[b], close)
    {
      if b < |front| {
        assert vs[b] == front[b];
        OldFaceEntry(prev, r, |m.faces| + b, front[b], close);
      }
    }
  }

  /**
   * Adding the corners of a triangle keeps the stored points pairwise out of
   * tolerance, and every point it stores is one of those corners.
   */
  lemma {:induction false} AddVerticesPoints(m: Mesh, vs: seq<Point3>, close: Closeness)
    ensures var r := AddVertices(m, vs, close);
            && |m.points| <= |r.points| && r.points[..|m.points|] == m.points
            && (Separated(m.points, close) ==> Separated(r.points, close))
            && (forall i :: |m.points| <= i < |r.points| ==> r.points[i] in vs)
    decreases |vs|
  {
    if vs != [] {
      var front := vs[..|vs| - 1];
      var v := vs[|vs| - 1];
      AddVerticesPoints(m, front, close);
      var prev := AddVertices(m, front, close);
      var ix := VertexIndex(prev.points, v, close);
      var r := AddVertices(m, vs, close);
      assert r.points == ix.points;
      forall i | |m.points| <= i < |r.points|
        ensures r.points[i] in vs
      {
        if i < |prev.points| {
          assert r.points[i] == prev.points[i];
          assert prev.points[i] in front;
        } else {
          assert r.points[i] == v;
        }
      }
    }
  }

  /**
   * The stored points of any triangulation are pairwise out of tolerance
   * and every one of them is a corner of some triangle.
   */
  lemma {:induction false} IndexTrianglesPoints(triangles: seq<Triangle>, close: Closeness)
    ensures var m := IndexTriangles(triangles, close);
            && Separated(m.points, close)
            && (forall i :: 0 <= i < |m.points| ==> m.points[i] in Corners(triangles))
    decreases |triangles|
  {
    if triangles != [] {
      var n := |triangles| - 1;
      var front, t := triangles[..n], triangles[n];
      IndexTrianglesPoints(front, close);
      var prev := IndexTriangles(front, close);
      var start := Mesh(prev.points, prev.faces + [0]);
      AddVerticesPoints(start, t, close);
      var m := IndexTriangles(triangles, close);
      assert m == AddVertices(start, t, close);
      assert Corners(triangles) == Corners(front) + t;
      forall i | 0 <= i < |m.points|
        ensures m.points[i] in Corners(triangles)
      {
        if i < |prev.points| {
          assert m.points[i] == prev.points[i];
        }
      }
    }
  }

  /**
   * The face sequence of a triangulation into three-point triangles has
   * four entries per triangle, and every fourth one is the marker 0.
   */
  lemma {:induction false} IndexTrianglesMarkers(triangles: seq<Triangle>, close: Closeness)
    requires forall a :: 0 <= a < |triangles| ==> |triangles[a]| == 3
    ensures var m := IndexTriangles(triangles, close);
            && |m.faces| == 4 * |triangles|
            && (forall k :: 0 <= k < |m.faces| && k % 4 == 0 ==> m.faces[k] == 0)
    decreases |triangles|
  {
    if triangles != [] {
      var n := |triangles| - 1;
      var front, t := triangles[..n], triangles[n];
      IndexTrianglesMarkers(front, close);
      var prev := IndexTriangles(front, close);
      var start := Mesh(prev.points, prev.faces + [0]);
      AddVerticesExtends(start, t, close);
      var m := IndexTriangles(triangles, close);
      assert m == AddVertices(start, t, close);
      forall k | 0 <= k < |m.faces| && k % 4 == 0
        ensures m.faces[k] == 0
      {
        MarkerPosition(k, n);
        assert m.faces[k] == start.faces[k] by {
          assert m.faces[..|start.faces|] == start.faces;
        }
        assert k < 4 * n ==> start.faces[k] == prev.faces[k];
      }
    }
  }

  /**
   * Four face entries per triangle, and each entry after a marker is the
   * index of a stored point that stands for the matching corner.
   */
  predicate FacesRepresent(m: Mesh, triangles: seq<Triangle>, close: Closeness)
    requires forall a :: 0 <= a < |triangles| ==> |triangles[a]| == 3
  {
    && |m.faces| == 4 * |triangles|
    && forall k :: 0 <= k < |m.faces| && k % 4 != 0 ==>
         Represents(m.points, m.faces[k], triangles[k / 4][k % 4 - 1], close)
  }

  /**
   * In the face sequence of a triangulation into three-point triangles,
   * each entry after a marker is the index of a stored point that stands
   * for the matching corner of its triangle.
   */
  lemma {:induction false} IndexTrianglesFaces(triangles: seq<Triangle>, close: Closeness)
    requires forall a :: 0 <= a < |triangles| ==> |triangles[a]| == 3
    ensures FacesRepresent(IndexTriangles(triangles, close), triangles, close)
    decreases |triangles|
  {
    if triangles != [] {
      var n := |triangles| - 1;
      IndexTrianglesFaces(triangles[..n], close);
      AddTriangleFaces(IndexTriangles(triangles[..n], close), triangles, close);
    }
  }

  /** The induction step of the lemma above: one more triangle. */
  lemma AddTriangleFaces(prev: Mesh, triangles: seq<Triangle>, close: Closeness)
    requires triangles != [] && forall a :: 0 <= a < |triangles| ==> |triangles[a]| == 3
    requires FacesRepresent(prev, triangles[..|triangles| - 1], close)
    ensures FacesRepresent(AddTriangle(prev, triangles[|triangles| - 1], close), triangles, close)
  {
    var t := triangles[|triangles| - 1];
    var start := Mesh(prev.points, prev.faces + [0]);
    AddVerticesExtends(start, t, close);
    var m := AddVertices(start, t, close);
    assert m.faces[..|prev.faces|] == prev.faces by {
      assert m.faces[..|start.faces|] == start.faces;
      assert m.faces[..|prev.faces|] == start.faces[..|prev.faces|];
    }
    FacesStep(prev, m, triangles, t, close);
  }

  /**
   * The same step on mesh values: the old entries keep standing for their
   * corners and the three new ones after the marker stand for the new corners.
   */
  lemma FacesStep(prev: Mesh, m: Mesh, triangles: seq<Triangle>, t: Triangle, close: Closeness)
    requires triangles != [] && forall a :: 0 <= a < |triangles| ==> |triangles[a]| == 3
    requires t == triangles[|triangles| - 1]
    requires FacesRepresent(prev, triangles[..|triangles| - 1], close)
    requires |m.faces| == |prev.faces| + 4 && m.faces[..|prev.faces|] == prev.faces
    requires |prev.points| <= |m.points| && m.points[..|prev.points|] == prev.points
    requires forall b :: 0 <= b < 3 ==> Represents(m.points, m.faces[|prev.faces| + 1 + b], t[b], close)
    ensures FacesRepresent(m, triangles, close)
  {
    var n := |triangles| - 1;
    var front := triangles[..n];
    forall k | 0 <= k < |m.faces| && k % 4 != 0
      ensures Represents(m.points, m.faces[k], triangles[k / 4][k % 4 - 1], close)
    {
      CornerPosition(k, n);
      if k < 4 * n {
        var a, b := k / 4, k % 4 - 1;
        assert front[a] == triangles[a];
        OldFaceEntry(prev, m, k, front[a][b], close);
      } else {
        var b := k - 4 * n - 1;
        assert m.faces[k] == m.faces[|prev.faces| + 1 + b];
      }
    }
  }

  lemma CornerPosition(k: nat, n: nat)
    requires k % 4 != 0 && k < 4 * n + 4
    ensures k < 4 * n ==> k / 4 < n && 0 <= k % 4 - 1 < 3
    ensures k >= 4 * n ==> k / 4 == n && k % 4 - 1 == k - 4 * n - 1 && 0 <= k - 4 * n - 1 < 3
  {
  }

  lemma MarkerPosition(k: nat, n: nat)
    requires k % 4 == 0 && k < 4 * n + 4
    ensures k <= 4 * n
  {
  }

  /** A face entry that stood for a point keeps standing for it as the mesh grows. */
  lemma OldFaceEntry(prev: Mesh, m: Mesh, k: nat, v: Point3, close: Closeness)
    requires k < |prev.faces| <= |m.faces| && m.faces[..|prev.faces|] == prev.faces
    requires |prev.points| <= |m.points| && m.points[..|prev.points|] == prev.points
    requires Represents(prev.points, prev.faces[k], v, close)
    ensures Represents(m.points, m.faces[k], v, close)
  {
    assert m.faces[k] == prev.faces[k];
    assert m.points[prev.faces[k]] == prev.points[prev.faces[k]];
  }

  /**
   * The face loop of make_geometries (and of make_shade_geometries): a fresh
   * vertex list, then for each triangle the marker 0 and one
   * get_vertex_index per vertex.
   */
  method IndexFaces(triangles: seq<Triangle>, close: Closeness) returns (mesh: Mesh)
    ensures mesh == IndexTriangles(triangles, close)
  {
    var allVertices := new VertexList();
    var faceIndices: seq<nat> := [];
    for t := 0 to |triangles|
      invariant Mesh(allVertices.points, faceIndices) == IndexTriangles(triangles[..t], close)
    {
      assert triangles[..t + 1][..t] == triangles[..t];
      faceIndices := faceIndices + [0];
      ghost var start := Mesh(allVertices.points, faceIndices);
      var vertices := triangles[t];
      for j := 0 to |vertices|
        invariant Mesh(allVertices.points, faceIndices) == AddVertices(start, vertices[..j], close)
      {
        assert vertices[..j + 1][..j] == vertices[..j];
        var i := GetVertexIndex(vertices[j], allVertices, close);
        faceIndices := faceIndices + [i];
      }
      assert vertices[..|vertices|] == vertices;
    }
    assert triangles[..|triangles|] == triangles;
    mesh := Mesh(allVertices.points, faceIndices);
  }
}
