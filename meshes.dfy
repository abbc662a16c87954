/**
 * make_geometries and make_shade_geometries: a surface (with its
 * sub-surfaces) or a shading surface becomes Three.js geometries, one per
 * triangulated polygon, each paired with the user data that describes the
 * model object it came from.
 *
 * The geometry kernel (face alignment, site transformation, triangulation)
 * is outside the model: every polygon arrives with its triangles, already
 * in site coordinates, and an empty triangle list is a failed triangulation.
 */
module Meshes {
  import opened Wrappers
  import opened Formats
  import opened Vertices

  /** A space as the converter reads it: its name and the names of its zone, type and story, when set. */
  datatype Space = Space(
    name: string,
    thermalZone: Option<string>,
    spaceType: Option<string>,
    buildingStory: Option<string>)

  /** A window, door or other opening of a surface. */
  datatype SubSurface = SubSurface(
    handle: string,
    name: string,
    subSurfaceType: string,
    adjacentSubSurface: Option<string>,
    construction: Option<string>,
    vertices: seq<Point3>,
    triangles: seq<Triangle>)

  /** A floor, wall or roof; `triangles` triangulates it with its sub-surfaces cut out. */
  datatype Surface = Surface(
    handle: string,
    name: string,
    surfaceType: string,
    outsideBoundaryCondition: string,
    adjacentSurface: Option<string>,
    sunExposure: string,
    windExposure: string,
    construction: Option<string>,
    space: Option<Space>,
    vertices: seq<Point3>,
    subSurfaces: seq<SubSurface>,
    triangles: seq<Triangle>)

  /** The group a shading surface belongs to: its type ("Site", "Building" or "Space") and space. */
  datatype ShadingGroup = ShadingGroup(shadingSurfaceType: string, space: Option<Space>)

  datatype ShadingSurface = ShadingSurface(
    handle: string,
    name: string,
    construction: Option<string>,
    group: Option<ShadingGroup>,
    vertices: seq<Point3>,
    triangles: seq<Triangle>)

  /** The GeometryData record: a flat vertex buffer and the face list. */
  datatype GeometryData = GeometryData(
    vertices: seq<real>,
    normals: seq<real>,
    uvs: seq<real>,
    faces: seq<nat>,
    scale: nat,
    visible: bool,
    castShadow: bool,
    receiveShadow: bool,
    doubleSided: bool)

  /** The Geometry record; `kind` is its JSON key "type". */
  datatype Geometry = Geometry(uuid: string, kind: string, data: GeometryData)

  /** The UserData record; nil is None. */
  datatype UserData = UserData(
    handle: string,
    name: string,
    surfaceType: string,
    constructionName: Option<string>,
    spaceName: Option<string>,
    thermalZoneName: Option<string>,
    spaceTypeName: Option<string>,
    buildingStoryName: Option<string>,
    outsideBoundaryCondition: Option<string>,
    outsideBoundaryConditionObjectName: Option<string>,
    sunExposure: string,
    windExposure: string,
    vertices: seq<Point3>)

  /** The pair [geometries, user_datas] both geometry builders return on success. */
  datatype GeometrySet = GeometrySet(geometries: seq<Geometry>, userDatas: seq<UserData>)

  /**
   * The geometry of one triangulated polygon: its corners merged within
   * tolerance into a vertex list, flattened, and the face list with a 0
   * marker before each triangle's three vertex indices.
   */
  function MeshGeometry(handle: string, triangles: seq<Triangle>, close: Closeness): Geometry
  {
    var mesh := IndexTriangles(triangles, close);
    Geometry(FormatUuid(handle), "Geometry",
             GeometryData(Flatten(mesh.points), [], [], mesh.faces, 1, true, true, false, true))
  }

  /** The loops over the triangles and the flattening, as the converter runs them. */
  method MakeMeshGeometry(handle: string, triangles: seq<Triangle>, close: Closeness) returns (g: Geometry)
    ensures g == MeshGeometry(handle, triangles, close)
  {
    var mesh := IndexFaces(triangles, close);
    var flat := FlattenVertices(mesh.points);
    g := Geometry(FormatUuid(handle), "Geometry", GeometryData(flat, [], [], mesh.faces, 1, true, true, false, true));
  }

  /**
   * Reading a geometry back: its buffer holds whole (x, z, -y) triples, four
   * face entries per triangle, a 0 marker first, and every other entry
   * indexes a stored vertex that is the triangle's corner or within
   * tolerance of it; the stored vertices are pairwise out of tolerance.
   */
  lemma MeshGeometryDecodes(handle: string, triangles: seq<Triangle>, close: Closeness)
    requires forall a :: 0 <= a < |triangles| ==> |triangles[a]| == 3
    ensures var d := MeshGeometry(handle, triangles, close).data;
            && |d.vertices| % 3 == 0
            && Separated(Unflatten(d.vertices), close)
            && |d.faces| == 4 * |triangles|
            && (forall k :: 0 <= k < |d.faces| && k % 4 == 0 ==> d.faces[k] == 0)
            && (forall k :: 0 <= k < |d.faces| && k % 4 != 0 ==>
                  Represents(Unflatten(d.vertices), d.faces[k], triangles[k / 4][k % 4 - 1], close))
  {
    var mesh := IndexTriangles(triangles, close);
    UnflattenFlatten(mesh.points);
    IndexTrianglesPoints(triangles, close);
    IndexTrianglesMarkers(triangles, close);
    IndexTrianglesFaces(triangles, close);
  }

  /** The names the user data takes from a space, when there is one. */
  datatype SpaceNames = SpaceNames(
    spaceName: Option<string>,
    thermalZoneName: Option<string>,
    spaceTypeName: Option<string>,
    buildingStoryName: Option<string>)

  function NamesOf(space: Option<Space>): (n: SpaceNames)
    ensures space.None? ==> n == SpaceNames(None, None, None, None)
    ensures space.Some? ==> n.spaceName == Some(space.value.name)
  {
    match space
    case None => SpaceNames(None, None, None, None)
    case Some(s) => SpaceNames(Some(s.name), s.thermalZone, s.spaceType, s.buildingStory)
  }

  /** The user data of a surface. */
  function SurfaceUserData(s: Surface): UserData
  {
    var n := NamesOf(s.space);
    UserData(FormatUuid(s.handle), s.name, s.surfaceType, s.construction,
             n.spaceName, n.thermalZoneName, n.spaceTypeName, n.buildingStoryName,
             Some(s.outsideBoundaryCondition), s.adjacentSurface, s.sunExposure, s.windExposure,
             s.vertices)
  }

  /**
   * The user data of a sub-surface: its own handle, name, type, adjacent
   * sub-surface and construction; everything else copied from the parent's
   * user data, the vertex list included (the parent surface's vertices).
   */
  function SubSurfaceUserData(parent: UserData, s: Surface, sub: SubSurface): UserData
  {
    UserData(FormatUuid(sub.handle), sub.name, sub.subSurfaceType, sub.construction,
             parent.spaceName, parent.thermalZoneName, parent.spaceTypeName, parent.buildingStoryName,
             parent.outsideBoundaryCondition, sub.adjacentSubSurface, parent.sunExposure, parent.windExposure,
             s.vertices)
  }

  /** The geometries of the first sub-surfaces, in order. */
  function SubGeometries(subs: seq<SubSurface>, close: Closeness): (r: seq<Geometry>)
    ensures |r| == |subs|
  {
    if subs == [] then []
    else
      var n := |subs| - 1;
      SubGeometries(subs[..n], close) + [MeshGeometry(subs[n].handle, subs[n].triangles, close)]
  }

  function SubUserDatas(parent: UserData, s: Surface, subs: seq<SubSurface>): (r: seq<UserData>)
    ensures |r| == |subs|
  {
    if subs == [] then []
    else
      var n := |subs| - 1;
      SubUserDatas(parent, s, subs[..n]) + [SubSurfaceUserData(parent, s, subs[n])]
  }

  /**
   * make_geometries: nothing (the bare empty list) when the surface fails
   * to triangulate; otherwise the surface's geometry and user data followed
   * by those of each sub-surface.
   */
  function SurfaceGeometries(s: Surface, close: Closeness): (r: Option<GeometrySet>)
    ensures r.Some? ==> |r.value.geometries| == |r.value.userDatas|
  {
    if s.triangles == [] then None
    else
      var parent := SurfaceUserData(s);
      Some(GeometrySet(
        [MeshGeometry(s.handle, s.triangles, close)] + SubGeometries(s.subSurfaces, close),
        [parent] + SubUserDatas(parent, s, s.subSurfaces)))
  }

  method MakeGeometries(s: Surface, close: Closeness) returns (r: Option<GeometrySet>)
    ensures r == SurfaceGeometries(s, close)
  {
    if |s.triangles| == 0 {
      return None;
    }
    var g := MakeMeshGeometry(s.handle, s.triangles, close);
    var parent := SurfaceUserData(s);
    var geometries := [g];
    var userDatas := [parent];
    var subs := s.subSurfaces;
    for k := 0 to |subs|
      invariant geometries == [g] + SubGeometries(subs[..k], close)
      invariant userDatas == [parent] + SubUserDatas(parent, s, subs[..k])
    {
      assert subs[..k + 1][..k] == subs[..k];
      var sg := MakeMeshGeometry(subs[k].handle, subs[k].triangles, close);
      geometries := geometries + [sg];
      userDatas := userDatas + [SubSurfaceUserData(parent, s, subs[k])];
    }
    assert subs[..|subs|] == subs;
    return Some(GeometrySet(geometries, userDatas));
  }

  lemma {:induction false} SubGeometriesAt(subs: seq<SubSurface>, close: Closeness, k: nat)
    requires k < |subs|
    ensures SubGeometries(subs, close)[k] == MeshGeometry(subs[k].handle, subs[k].triangles, close)
    decreases |subs|
  {
    var n := |subs| - 1;
    var front, last := SubGeometries(subs[..n], close), MeshGeometry(subs[n].handle, subs[n].triangles, close);
    assert SubGeometries(subs, close) == front + [last];
    if k < n {
      SubGeometriesAt(subs[..n], close, k);
      assert subs[..n][k] == subs[k];
      assert (front + [last])[k] == front[k];
    }
  }

  lemma {:induction false} SubUserDatasAt(parent: UserData, s: Surface, subs: seq<SubSurface>, k: nat)
    requires k < |subs|
    ensures SubUserDatas(parent, s, subs)[k] == SubSurfaceUserData(parent, s, subs[k])
    decreases |subs|
  {
    var n := |subs| - 1;
    assert SubUserDatas(parent, s, subs) == SubUserDatas(parent, s, subs[..n]) + [SubSurfaceUserData(parent, s, subs[n])];
    if k < n {
      SubUserDatasAt(parent, s, subs[..n], k);
      assert subs[..n][k] == subs[k];
    }
  }

  /**
   * A surface fails exactly when its triangulation is empty; otherwise it
   * yields one geometry and one user data for itself and for each
   * sub-surface, in order, each user data carrying its object's name and type.
   */
  lemma SurfaceGeometriesShape(s: Surface, close: Closeness)
    ensures SurfaceGeometries(s, close).None? <==> |s.triangles| == 0
    ensures SurfaceGeometries(s, close).Some? ==>
              var out := SurfaceGeometries(s, close).value;
              && |out.geometries| == |out.userDatas| == 1 + |s.subSurfaces|
              && out.geometries[0] == MeshGeometry(s.handle, s.triangles, close)
              && out.userDatas[0].name == s.name && out.userDatas[0].surfaceType == s.surfaceType
              && (forall k :: 0 <= k < |s.subSurfaces| ==>
                    && out.geometries[k + 1] == MeshGeometry(s.subSurfaces[k].handle, s.subSurfaces[k].triangles, close)
                    && out.userDatas[k + 1].name == s.subSurfaces[k].name
                    && out.userDatas[k + 1].surfaceType == s.subSurfaces[k].subSurfaceType)
  {
    if s.triangles != [] {
      var out := SurfaceGeometries(s, close).value;
      var parent := SurfaceUserData(s);
      forall k | 0 <= k < |s.subSurfaces|
        ensures out.geometries[k + 1] == MeshGeometry(s.subSurfaces[k].handle, s.subSurfaces[k].triangles, close)
        ensures out.userDatas[k + 1] == SubSurfaceUserData(parent, s, s.subSurfaces[k])
      {
        SubGeometriesAt(s.subSurfaces, close, k);
        SubUserDatasAt(parent, s, s.subSurfaces, k);
      }
    }
  }

  /** Each user data carries, as its handle, the UUID of the geometry at the same position. */
  lemma SurfaceGeometriesHandles(s: Surface, close: Closeness)
    requires |s.triangles| > 0
    ensures var out := SurfaceGeometries(s, close).value;
            && |out.geometries| == |out.userDatas|
            && forall k :: 0 <= k < |out.geometries| ==> out.geometries[k].uuid == out.userDatas[k].handle
  {
    var out := SurfaceGeometries(s, close).value;
    var parent := SurfaceUserData(s);
    forall k | 0 <= k < |out.geometries|
      ensures out.geometries[k].uuid == out.userDatas[k].handle
    {
      if k > 0 {
        SubGeometriesAt(s.subSurfaces, close, k - 1);
        SubUserDatasAt(parent, s, s.subSurfaces, k - 1);
      }
    }
  }

  /**
   * The surface's user data: its boundary condition and exposures, its
   * construction and adjacent surface names, and the names of its space and
   * of that space's zone, type and story.
   */
  lemma SurfaceUserDataFields(s: Surface, close: Closeness)
    requires |s.triangles| > 0
    ensures var u := SurfaceGeometries(s, close).value.userDatas[0];
            && u.handle == FormatUuid(s.handle)
            && u.outsideBoundaryCondition == Some(s.outsideBoundaryCondition)
            && u.outsideBoundaryConditionObjectName == s.adjacentSurface
            && u.sunExposure == s.sunExposure && u.windExposure == s.windExposure
            && u.constructionName == s.construction
            && u.vertices == s.vertices
            && (s.space.None? ==> u.spaceName.None? && u.thermalZoneName.None? && u.spaceTypeName.None? && u.buildingStoryName.None?)
            && (s.space.Some? ==> u.spaceName == Some(s.space.value.name)
                                  && u.thermalZoneName == s.space.value.thermalZone
                                  && u.spaceTypeName == s.space.value.spaceType
                                  && u.buildingStoryName == s.space.value.buildingStory)
  {
  }

  /**
   * Every sub-surface inherits the parent's boundary condition, exposures
   * and space, zone, type and story names, and its user data carries the
   * parent surface's vertices; its construction and adjacent object are its own.
   */
  lemma SubSurfacesInherit(s: Surface, close: Closeness)
    requires |s.triangles| > 0
    ensures var out := SurfaceGeometries(s, close).value;
            forall k :: 0 <= k < |s.subSurfaces| ==>
              var u, p := out.userDatas[k + 1], out.userDatas[0];
              && u.handle == FormatUuid(s.subSurfaces[k].handle)
              && u.outsideBoundaryCondition == p.outsideBoundaryCondition
              && u.sunExposure == p.sunExposure && u.windExposure == p.windExposure
              && u.spaceName == p.spaceName && u.thermalZoneName == p.thermalZoneName
              && u.spaceTypeName == p.spaceTypeName && u.buildingStoryName == p.buildingStoryName
              && u.constructionName == s.subSurfaces[k].construction
              && u.outsideBoundaryConditionObjectName == s.subSurfaces[k].adjacentSubSurface
              && u.vertices == s.vertices
  {
    var out := SurfaceGeometries(s, close).value;
    forall k | 0 <= k < |s.subSurfaces|
      ensures var u, p := out.userDatas[k + 1], out.userDatas[0];
              && u.handle == FormatUuid(s.subSurfaces[k].handle)
              && u.outsideBoundaryCondition == p.outsideBoundaryCondition
              && u.sunExposure == p.sunExposure && u.windExposure == p.windExposure
              && u.spaceName == p.spaceName && u.thermalZoneName == p.thermalZoneName
              && u.spaceTypeName == p.spaceTypeName && u.buildingStoryName == p.buildingStoryName
              && u.constructionName == s.subSurfaces[k].construction
              && u.outsideBoundaryConditionObjectName == s.subSurfaces[k].adjacentSubSurface
              && u.vertices == s.vertices
    {
      SubSurfaceRecord(s, close, k);
    }
  }

  /** The record after the surface's own at position `k + 1` is that of sub-surface `k`. */
  lemma SubSurfaceRecord(s: Surface, close: Closeness, k: nat)
    requires |s.triangles| > 0 && k < |s.subSurfaces|
    ensures var out := SurfaceGeometries(s, close).value;
            && out.userDatas[0] == SurfaceUserData(s)
            && out.userDatas[k + 1] == SubSurfaceUserData(SurfaceUserData(s), s, s.subSurfaces[k])
  {
    var parent := SurfaceUserData(s);
    var out := SurfaceGeometries(s, close).value;
    assert out.userDatas == [parent] + SubUserDatas(parent, s, s.subSurfaces);
    SubUserDatasAt(parent, s, s.subSurfaces, k);
  }

  /** The type of a shading surface's group, "Building" when it has none. */
  function ShadingType(sh: ShadingSurface): string
  {
    if sh.group.Some? then sh.group.value.shadingSurfaceType else "Building"
  }

  /** The user data of a shading surface. */
  function ShadeUserData(sh: ShadingSurface): UserData
  {
    var n := if sh.group.Some? then NamesOf(sh.group.value.space) else NamesOf(None);
    UserData(FormatUuid(sh.handle), sh.name, ShadingType(sh) + "Shading", sh.construction,
             n.spaceName, n.thermalZoneName, n.spaceTypeName, n.buildingStoryName,
             None, None, "SunExposed", "WindExposed", sh.vertices)
  }

  /** make_shade_geometries: nothing when triangulation fails, else one geometry and its user data. */
  function ShadeGeometries(sh: ShadingSurface, close: Closeness): (r: Option<GeometrySet>)
    ensures r.Some? ==> |r.value.geometries| == |r.value.userDatas|
  {
    if sh.triangles == [] then None
    else Some(GeometrySet([MeshGeometry(sh.handle, sh.triangles, close)], [ShadeUserData(sh)]))
  }

  method MakeShadeGeometries(sh: ShadingSurface, close: Closeness) returns (r: Option<GeometrySet>)
    ensures r == ShadeGeometries(sh, close)
  {
    if |sh.triangles| == 0 {
      return None;
    }
    var g := MakeMeshGeometry(sh.handle, sh.triangles, close);
    return Some(GeometrySet([g], [ShadeUserData(sh)]));
  }

  /**
   * A shading surface fails exactly when its triangulation is empty;
   * otherwise it yields one geometry whose UUID is the user data's handle,
   * typed "<group type>Shading" ("BuildingShading" without a group), with
   * no boundary condition, sun and wind exposed, and the space names of
   * the group's space.
   */
  lemma ShadeGeometriesShape(sh: ShadingSurface, close: Closeness)
    ensures ShadeGeometries(sh, close).None? <==> |sh.triangles| == 0
    ensures ShadeGeometries(sh, close).Some? ==>
              var out := ShadeGeometries(sh, close).value;
              var u := out.userDatas[0];
              && |out.geometries| == |out.userDatas| == 1
              && out.geometries[0].uuid == u.handle == FormatUuid(sh.handle)
              && u.name == sh.name
              && u.surfaceType == (if sh.group.Some? then sh.group.value.shadingSurfaceType else "Building") + "Shading"
              && u.outsideBoundaryCondition.None? && u.outsideBoundaryConditionObjectName.None?
              && u.sunExposure == "SunExposed" && u.windExposure == "WindExposed"
              && u.constructionName == sh.construction
              && u.vertices == sh.vertices
              && (sh.group.None? || sh.group.value.space.None? ==>
                    u.spaceName.None? && u.thermalZoneName.None? && u.spaceTypeName.None? && u.buildingStoryName.None?)
              && (sh.group.Some? && sh.group.value.space.Some? ==>
                    u.spaceName == Some(sh.group.value.space.value.name)
                    && u.thermalZoneName == sh.group.value.space.value.thermalZone
                    && u.spaceTypeName == sh.group.value.space.value.spaceType
                    && u.buildingStoryName == sh.group.value.space.value.buildingStory)
  {
  }
}
