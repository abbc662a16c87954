/**
 * The layout of the scene build_scene returns: geometry `j` and child `j`
 * belong together, the children take consecutive UUIDs after the scene
 * object's, each object contributes one child per geometry, and each child
 * carries its object's name, material and user data.
 */
module SceneLayout {
  import opened Wrappers
  import opened Numerals
  import opened Formats
  import opened Vertices
  import opened Materials
  import opened Meshes
  import opened Scenes
  import opened SceneProperties

  // ---------------------------------------------------------------------
  // Children line up with geometries and UUIDs
  // ---------------------------------------------------------------------

  /** A child that shows geometry `g`, carries user data for it, and has UUID `uuid`. */
  predicate ChildAligned(c: SceneChild, g: Geometry, uuid: string)
  {
    c.uuid == uuid && c.geometry == g.uuid && c.userData.handle == g.uuid
  }

  /**
   * As many children as geometries, child `j` showing geometry `j` and
   * taking the `j`-th UUID from `first`.
   */
  predicate Aligned(a: Assembly, gen: nat -> string, first: nat)
  {
    && |a.geometries| == |a.children|
    && forall j :: 0 <= j < |a.children| ==> ChildAligned(a.children[j], a.geometries[j], FormatUuid(gen(first + j)))
  }

  /** Each user data of a geometry set carries the UUID of its geometry as its handle. */
  predicate Handled(gs: GeometrySet)
  {
    && |gs.geometries| == |gs.userDatas|
    && forall i :: 0 <= i < |gs.geometries| ==> gs.geometries[i].uuid == gs.userDatas[i].handle
  }

  /** Appending the first `n` geometries of `gs` and children aligned with them keeps the assembly aligned. */
  lemma AlignedExtend(a: Assembly, gs: GeometrySet, cs: seq<SceneChild>, gen: nat -> string, first: nat, n: nat)
    requires Aligned(a, gen, first) && Handled(gs)
    requires n <= |gs.geometries| && |cs| == n
    requires forall i :: 0 <= i < n ==>
               cs[i].uuid == FormatUuid(gen(first + |a.children| + i))
               && cs[i].geometry == gs.geometries[i].uuid && cs[i].userData == gs.userDatas[i]
    ensures Aligned(Assembly(a.geometries + gs.geometries[..n], a.children + cs), gen, first)
  {
    var b := Assembly(a.geometries + gs.geometries[..n], a.children + cs);
    forall j | 0 <= j < |b.children|
      ensures ChildAligned(b.children[j], b.geometries[j], FormatUuid(gen(first + j)))
    {
      if j >= |a.children| {
        var i := j - |a.children|;
        assert b.children[j] == cs[i] && b.geometries[j] == gs.geometries[i];
        assert first + j == first + |a.children| + i;
      } else {
        assert b.children[j] == a.children[j] && b.geometries[j] == a.geometries[j];
      }
    }
  }

  /** The inner loop keeps the assembly aligned. */
  lemma AddChildrenAligned(a: Assembly, name: string, gs: GeometrySet, pick: Pick, gen: nat -> string, base: nat)
    requires Aligned(a, gen, base) && Handled(gs)
    ensures var r := AddChildren(a, name, gs, pick, gen, base, |gs.geometries|);
            r.Success? ==> Aligned(r.value, gen, base)
  {
    var n := |gs.geometries|;
    AddChildrenResult(a, name, gs, pick, gen, base, n);
    if AllPicked(gs, pick, n) {
      var cs := NewChildren(name, gs, pick, gen, base + |a.children|, n);
      forall i | 0 <= i < n
        ensures cs[i].uuid == FormatUuid(gen(base + |a.children| + i))
        ensures cs[i].geometry == gs.geometries[i].uuid && cs[i].userData == gs.userDatas[i]
      {
        NewChildrenAt(name, gs, pick, gen, base + |a.children|, n, i);
      }
      AlignedExtend(a, gs, cs, gen, base, n);
    }
  }

  /** The surface loop's step keeps the assembly aligned. */
  lemma AddSurfaceAligned(a: Assembly, s: Surface, close: Closeness, l: Lookups, gen: nat -> string, base: nat)
    requires Aligned(a, gen, base)
    ensures var r := AddSurface(a, s, close, l, gen, base);
            r.Success? ==> Aligned(r.value, gen, base)
  {
    if |s.triangles| > 0 {
      SurfaceGeometriesHandles(s, close);
      var gs := SurfaceGeometries(s, close).value;
      AddChildrenAligned(a, s.name, gs, SurfacePick(s, l), gen, base);
    }
  }

  /** The shading loop's step keeps the assembly aligned. */
  lemma AddShadeAligned(a: Assembly, sh: ShadingSurface, close: Closeness, l: Lookups, gen: nat -> string, base: nat)
    requires Aligned(a, gen, base)
    ensures var r := AddShade(a, sh, close, l, gen, base);
            r.Success? ==> Aligned(r.value, gen, base)
  {
    ShadeGeometriesShape(sh, close);
    if |sh.triangles| > 0 {
      var gs := ShadeGeometries(sh, close).value;
      AddChildrenAligned(a, sh.name, gs, ShadingPick(l), gen, base);
    }
  }

  /** A loop whose every successful step keeps `inv` ends, if it succeeds, in a state satisfying `inv`. */
  lemma {:induction false} FoldPreserves<T>(a: Assembly, xs: seq<T>, step: (Assembly, T) -> Result<Assembly, SceneError>,
                                           inv: Assembly -> bool)
    requires inv(a)
    requires forall b: Assembly, x: T :: inv(b) && step(b, x).Success? ==> inv(step(b, x).value)
    ensures Fold(a, xs, step).Success? ==> inv(Fold(a, xs, step).value)
    decreases |xs|
  {
    if xs != [] {
      FoldPreserves(a, xs[..|xs| - 1], step, inv);
    }
  }

  /** Both loops keep the children aligned with the geometries and the UUIDs from `base` on. */
  lemma CollectAligned(model: Model, close: Closeness, l: Lookups, gen: nat -> string, base: nat)
    ensures var r := Collect(model, close, l, gen, base);
            r.Success? ==> Aligned(r.value, gen, base)
  {
    var inv := (b: Assembly) => Aligned(b, gen, base);
    forall b: Assembly, x: Surface
      ensures inv(b) && SurfaceStep(close, l, gen, base)(b, x).Success? ==> inv(SurfaceStep(close, l, gen, base)(b, x).value)
    {
      if inv(b) {
        AddSurfaceAligned(b, x, close, l, gen, base);
      }
    }
    forall b: Assembly, x: ShadingSurface
      ensures inv(b) && ShadeStep(close, l, gen, base)(b, x).Success? ==> inv(ShadeStep(close, l, gen, base)(b, x).value)
    {
      if inv(b) {
        AddShadeAligned(b, x, close, l, gen, base);
      }
    }
    var surfaces := Fold(Assembly([], []), model.surfaces, SurfaceStep(close, l, gen, base));
    FoldPreserves(Assembly([], []), model.surfaces, SurfaceStep(close, l, gen, base), inv);
    if surfaces.Success? {
      FoldPreserves(surfaces.value, model.shadingSurfaces, ShadeStep(close, l, gen, base), inv);
    }
  }

  // ---------------------------------------------------------------------
  // How many children
  // ---------------------------------------------------------------------

  /** The sum of `size` over `xs`. */
  function Total<T>(xs: seq<T>, size: T -> nat): nat
    decreases |xs|
  {
    if xs == [] then 0 else Total(xs[..|xs| - 1], size) + size(xs[|xs| - 1])
  }

  /** The geometries a surface contributes: its own and one per sub-surface. */
  function SurfaceSize(s: Surface): nat
  {
    1 + |s.subSurfaces|
  }

  /** A loop whose steps each add `size` children adds `Total(xs, size)` children. */
  lemma {:induction false} FoldCounts<T>(a: Assembly, xs: seq<T>, step: (Assembly, T) -> Result<Assembly, SceneError>,
                                        size: T -> nat)
    requires forall b: Assembly, x: T :: step(b, x).Success? ==> |step(b, x).value.children| == |b.children| + size(x)
    ensures Fold(a, xs, step).Success? ==> |Fold(a, xs, step).value.children| == |a.children| + Total(xs, size)
    decreases |xs|
  {
    if xs != [] {
      FoldCounts(a, xs[..|xs| - 1], step, size);
    }
  }

  /** Adding one apiece over `xs` adds `|xs|`. */
  lemma {:induction false} TotalOfOnes<T>(xs: seq<T>, size: T -> nat)
    requires forall x :: size(x) == 1
    ensures Total(xs, size) == |xs|
    decreases |xs|
  {
    if xs != [] {
      TotalOfOnes(xs[..|xs| - 1], size);
    }
  }

  /** A surface that gets through adds one child for itself and one per sub-surface. */
  lemma AddSurfaceCount(a: Assembly, s: Surface, close: Closeness, l: Lookups, gen: nat -> string, base: nat)
    ensures var r := AddSurface(a, s, close, l, gen, base);
            r.Success? ==> |r.value.children| == |a.children| + SurfaceSize(s)
  {
    SurfaceGeometriesShape(s, close);
    if |s.triangles| > 0 {
      var gs := SurfaceGeometries(s, close).value;
      AddChildrenResult(a, s.name, gs, SurfacePick(s, l), gen, base, |gs.geometries|);
    }
  }

  /** A shading surface that gets through adds one child. */
  lemma AddShadeCount(a: Assembly, sh: ShadingSurface, close: Closeness, l: Lookups, gen: nat -> string, base: nat)
    ensures var r := AddShade(a, sh, close, l, gen, base);
            r.Success? ==> |r.value.children| == |a.children| + 1
  {
    ShadeGeometriesShape(sh, close);
    if |sh.triangles| > 0 {
      var gs := ShadeGeometries(sh, close).value;
      AddChildrenResult(a, sh.name, gs, ShadingPick(l), gen, base, 1);
    }
  }

  /** Both loops together add one child per surface, per sub-surface and per shading surface. */
  lemma CollectCount(model: Model, close: Closeness, l: Lookups, gen: nat -> string, base: nat)
    ensures var r := Collect(model, close, l, gen, base);
            r.Success? ==> |r.value.children| == Total(model.surfaces, SurfaceSize) + |model.shadingSurfaces|
  {
    var one := (sh: ShadingSurface) => 1;
    forall b: Assembly, x: Surface
      ensures SurfaceStep(close, l, gen, base)(b, x).Success? ==>
                |SurfaceStep(close, l, gen, base)(b, x).value.children| == |b.children| + SurfaceSize(x)
    {
      AddSurfaceCount(b, x, close, l, gen, base);
    }
    forall b: Assembly, x: ShadingSurface
      ensures ShadeStep(close, l, gen, base)(b, x).Success? ==>
                |ShadeStep(close, l, gen, base)(b, x).value.children| == |b.children| + one(x)
    {
      AddShadeCount(b, x, close, l, gen, base);
    }
    var surfaces := Fold(Assembly([], []), model.surfaces, SurfaceStep(close, l, gen, base));
    FoldCounts(Assembly([], []), model.surfaces, SurfaceStep(close, l, gen, base), SurfaceSize);
    if surfaces.Success? {
      FoldCounts(surfaces.value, model.shadingSurfaces, ShadeStep(close, l, gen, base), one);
      TotalOfOnes(model.shadingSurfaces, one);
    }
  }

  // ---------------------------------------------------------------------
  // Children show materials of the scene's list
  // ---------------------------------------------------------------------

  /** Some material of the list has UUID `uuid`. */
  predicate Listed(uuid: string, materials: seq<Material>)
  {
    exists i :: 0 <= i < |materials| && materials[i].uuid == uuid
  }

  /** Every child of the assembly shows a material of the list. */
  predicate References(a: Assembly, materials: seq<Material>)
  {
    forall j :: 0 <= j < |a.children| ==> Listed(a.children[j].material, materials)
  }

  /** A looked-up material, when there is one, is in the list. */
  predicate FoundIn(o: Option<Material>, materials: seq<Material>)
  {
    o.Some? ==> o.value in materials
  }

  /** Every lookup that finds something finds a material of the list. */
  predicate LookedUpIn(l: Lookups, materials: seq<Material>)
  {
    && FoundIn(l.floor, materials) && FoundIn(l.wall, materials) && FoundIn(l.roof, materials)
    && FoundIn(l.window, materials) && FoundIn(l.door, materials)
    && FoundIn(l.siteShading, materials) && FoundIn(l.buildingShading, materials)
    && FoundIn(l.spaceShading, materials)
  }

  /** A pick that only ever picks materials of the list. */
  ghost predicate PicksIn(pick: Pick, materials: seq<Material>)
  {
    forall i: nat, u: UserData :: FoundIn(pick(i, u), materials)
  }

  /** The lookups build_scene makes on a material list find only materials of that list. */
  lemma LookUpIn(materials: seq<Material>)
    ensures LookedUpIn(LookUp(materials), materials)
  {
  }

  lemma SurfacePickIn(s: Surface, l: Lookups, materials: seq<Material>)
    requires LookedUpIn(l, materials)
    ensures PicksIn(SurfacePick(s, l), materials)
  {
    forall i: nat, u: UserData
      ensures FoundIn(SurfacePick(s, l)(i, u), materials)
    {
      if i == 0 {
        assert SurfacePick(s, l)(i, u) == SurfaceMaterial(s.surfaceType, l);
      } else {
        assert SurfacePick(s, l)(i, u) == SubSurfaceMaterial(u.surfaceType, l);
      }
    }
  }

  lemma ShadingPickIn(l: Lookups, materials: seq<Material>)
    requires LookedUpIn(l, materials)
    ensures PicksIn(ShadingPick(l), materials)
  {
    forall i: nat, u: UserData
      ensures FoundIn(ShadingPick(l)(i, u), materials)
    {
      assert ShadingPick(l)(i, u) == ShadingMaterial(u.surfaceType, l);
    }
  }

  /** The inner loop adds only children that show materials of the list. */
  lemma AddChildrenReferences(a: Assembly, name: string, gs: GeometrySet, pick: Pick, gen: nat -> string, base: nat,
                              materials: seq<Material>)
    requires References(a, materials) && PicksIn(pick, materials)
    requires |gs.geometries| == |gs.userDatas|
    ensures var r := AddChildren(a, name, gs, pick, gen, base, |gs.geometries|);
            r.Success? ==> References(r.value, materials)
  {
    var n := |gs.geometries|;
    AddChildrenResult(a, name, gs, pick, gen, base, n);
    if AllPicked(gs, pick, n) {
      var cs := NewChildren(name, gs, pick, gen, base + |a.children|, n);
      var b := a.children + cs;
      forall j | 0 <= j < |b|
        ensures Listed(b[j].material, materials)
      {
        if j < |a.children| {
          assert b[j] == a.children[j];
        } else {
          var i := j - |a.children|;
          NewChildrenAt(name, gs, pick, gen, base + |a.children|, n, i);
          var m := pick(i, gs.userDatas[i]).value;
          assert FoundIn(pick(i, gs.userDatas[i]), materials);
          var k :| 0 <= k < |materials| && materials[k] == m;
          assert b[j] == cs[i];
        }
      }
    }
  }

  lemma AddSurfaceReferences(a: Assembly, s: Surface, close: Closeness, l: Lookups, gen: nat -> string, base: nat,
                             materials: seq<Material>)
    requires References(a, materials) && LookedUpIn(l, materials)
    ensures var r := AddSurface(a, s, close, l, gen, base);
            r.Success? ==> References(r.value, materials)
  {
    if |s.triangles| > 0 {
      SurfaceGeometriesHandles(s, close);
      SurfacePickIn(s, l, materials);
      var gs := SurfaceGeometries(s, close).value;
      AddChildrenReferences(a, s.name, gs, SurfacePick(s, l), gen, base, materials);
    }
  }

  lemma AddShadeReferences(a: Assembly, sh: ShadingSurface, close: Closeness, l: Lookups, gen: nat -> string, base: nat,
                           materials: seq<Material>)
    requires References(a, materials) && LookedUpIn(l, materials)
    ensures var r := AddShade(a, sh, close, l, gen, base);
            r.Success? ==> References(r.value, materials)
  {
    ShadeGeometriesShape(sh, close);
    if |sh.triangles| > 0 {
      ShadingPickIn(l, materials);
      var gs := ShadeGeometries(sh, close).value;
      AddChildrenReferences(a, sh.name, gs, ShadingPick(l), gen, base, materials);
    }
  }

  /** Both loops, looking materials up in a list, produce only children that show materials of that list. */
  lemma CollectReferences(model: Model, close: Closeness, materials: seq<Material>, gen: nat -> string, base: nat)
    ensures var r := Collect(model, close, LookUp(materials), gen, base);
            r.Success? ==> References(r.value, materials)
  {
    var l := LookUp(materials);
    LookUpIn(materials);
    var inv := (b: Assembly) => References(b, materials);
    forall b: Assembly, x: Surface
      ensures inv(b) && SurfaceStep(close, l, gen, base)(b, x).Success? ==> inv(SurfaceStep(close, l, gen, base)(b, x).value)
    {
      if inv(b) {
        AddSurfaceReferences(b, x, close, l, gen, base, materials);
      }
    }
    forall b: Assembly, x: ShadingSurface
      ensures inv(b) && ShadeStep(close, l, gen, base)(b, x).Success? ==> inv(ShadeStep(close, l, gen, base)(b, x).value)
    {
      if inv(b) {
        AddShadeReferences(b, x, close, l, gen, base, materials);
      }
    }
    var surfaces := Fold(Assembly([], []), model.surfaces, SurfaceStep(close, l, gen, base));
    FoldPreserves(Assembly([], []), model.surfaces, SurfaceStep(close, l, gen, base), inv);
    if surfaces.Success? {
      FoldPreserves(surfaces.value, model.shadingSurfaces, ShadeStep(close, l, gen, base), inv);
    }
  }

  // ---------------------------------------------------------------------
  // The scene
  // ---------------------------------------------------------------------

  /**
   * A scene built from a material list keeps that list, has a scene object
   * with UUID `gen(objectId)`, type "Scene" and the identity matrix, one
   * child per geometry taking UUIDs from `objectId + 1` on, and one child
   * per surface, sub-surface and shading surface.
   */
  lemma SceneFromShape(materials: seq<Material>, model: Model, close: Closeness, gen: nat -> string, objectId: nat)
    requires SceneFrom(materials, model, close, gen, objectId).Success?
    ensures var sc := SceneFrom(materials, model, close, gen, objectId).value;
            && sc.materials == materials
            && sc.root.uuid == FormatUuid(gen(objectId))
            && sc.root.kind == "Scene"
            && sc.root.matrix == IdentityMatrix()
            && Aligned(Assembly(sc.geometries, sc.root.children), gen, objectId + 1)
            && |sc.root.children| == Total(model.surfaces, SurfaceSize) + |model.shadingSurfaces|
            && References(Assembly(sc.geometries, sc.root.children), sc.materials)
  {
    CollectAligned(model, close, LookUp(materials), gen, objectId + 1);
    CollectCount(model, close, LookUp(materials), gen, objectId + 1);
    CollectReferences(model, close, materials, gen, objectId + 1);
  }

  /**
   * build_scene's scene: the 36 catalog materials, the scene object taking
   * the UUID right after theirs and the discarded per-entity materials',
   * and the children taking the UUIDs after that, in geometry order.
   */
  lemma SceneShape(model: Model, close: Closeness, gen: nat -> string, next: nat)
    requires SceneOf(model, close, gen, next).Success?
    ensures var sc := SceneOf(model, close, gen, next).value;
            var objectId := ObjectId(model, next);
            && sc.materials == Catalog(gen, next)
            && sc.root.uuid == FormatUuid(gen(objectId))
            && sc.root.kind == "Scene"
            && sc.root.matrix == IdentityMatrix()
            && Aligned(Assembly(sc.geometries, sc.root.children), gen, objectId + 1)
            && |sc.root.children| == Total(model.surfaces, SurfaceSize) + |model.shadingSurfaces|
            && forall j :: 0 <= j < |sc.root.children| ==> Listed(sc.root.children[j].material, sc.materials)
  {
    SceneFromShape(Catalog(gen, next), model, close, gen, ObjectId(model, next));
  }

  // ---------------------------------------------------------------------
  // What each object's children say
  // ---------------------------------------------------------------------

  /** The children a surface that is fine adds, as the inner loop builds them. */
  function SurfaceChildList(s: Surface, close: Closeness, l: Lookups, gen: nat -> string, first: nat): seq<SceneChild>
    requires SurfaceOk(s, l)
  {
    SurfacePicked(s, close, l);
    var gs := SurfaceGeometries(s, close).value;
    NewChildren(s.name, gs, SurfacePick(s, l), gen, first, |gs.geometries|)
  }

  lemma SurfaceAppends(a: Assembly, s: Surface, close: Closeness, l: Lookups, gen: nat -> string, base: nat)
    requires SurfaceOk(s, l)
    ensures AddSurface(a, s, close, l, gen, base).Success?
    ensures AddSurface(a, s, close, l, gen, base).value.children
            == a.children + SurfaceChildList(s, close, l, gen, base + |a.children|)
  {
    var gs := SurfaceGeometries(s, close).value;
    SurfacePicked(s, close, l);
    AddChildrenResult(a, s.name, gs, SurfacePick(s, l), gen, base, |gs.geometries|);
  }

  /** The surface's own child: "<name> 0", its geometry, its type's material and its user data. */
  lemma SurfaceOwnChild(s: Surface, close: Closeness, l: Lookups, gen: nat -> string, first: nat)
    requires SurfaceOk(s, l)
    ensures var cs := SurfaceChildList(s, close, l, gen, first);
            && |cs| == 1 + |s.subSurfaces|
            && cs[0] == SceneChild(FormatUuid(gen(first)), s.name + " 0", "Mesh", FormatUuid(s.handle),
                                   SurfaceMaterial(s.surfaceType, l).value.uuid, IdentityMatrix(), SurfaceUserData(s))
  {
    var gs := SurfaceGeometries(s, close).value;
    SurfaceGeometriesShape(s, close);
    SurfacePicked(s, close, l);
    NewChildrenAt(s.name, gs, SurfacePick(s, l), gen, first, |gs.geometries|, 0);
    assert Digits(0, 10) == "0";
  }

  /**
   * Sub-surface `k`'s child: "<name> k+1", the sub-surface's geometry, the
   * window or door material by its type, and the user data it inherits
   * from the surface.
   */
  lemma SubSurfaceChild(s: Surface, close: Closeness, l: Lookups, gen: nat -> string, first: nat, k: nat)
    requires SurfaceOk(s, l) && k < |s.subSurfaces|
    ensures var cs := SurfaceChildList(s, close, l, gen, first);
            && |cs| == 1 + |s.subSurfaces|
            && cs[k + 1] == SceneChild(FormatUuid(gen(first + k + 1)), ChildName(s.name, k + 1), "Mesh",
                                       FormatUuid(s.subSurfaces[k].handle),
                                       SubSurfaceMaterial(s.subSurfaces[k].subSurfaceType, l).value.uuid, IdentityMatrix(),
                                       SubSurfaceUserData(SurfaceUserData(s), s, s.subSurfaces[k]))
  {
    var gs := SurfaceGeometries(s, close).value;
    SubSurfaceEntry(s, close, k);
    SurfacePicked(s, close, l);
    NewChildrenAt(s.name, gs, SurfacePick(s, l), gen, first, |gs.geometries|, k + 1);
  }

  lemma SubSurfaceEntry(s: Surface, close: Closeness, k: nat)
    requires |s.triangles| > 0 && k < |s.subSurfaces|
    ensures var gs := SurfaceGeometries(s, close).value;
            && |gs.geometries| == |gs.userDatas| == 1 + |s.subSurfaces|
            && gs.geometries[k + 1].uuid == FormatUuid(s.subSurfaces[k].handle)
            && gs.userDatas[k + 1] == SubSurfaceUserData(SurfaceUserData(s), s, s.subSurfaces[k])
  {
    SubGeometriesAt(s.subSurfaces, close, k);
    SubUserDatasAt(SurfaceUserData(s), s, s.subSurfaces, k);
  }

  /**
   * A surface that is fine adds, after the earlier children, its own child
   * and then one child per sub-surface, in order.
   */
  lemma SurfaceChildren(a: Assembly, s: Surface, close: Closeness, l: Lookups, gen: nat -> string, base: nat)
    requires SurfaceOk(s, l)
    ensures AddSurface(a, s, close, l, gen, base).Success?
    ensures var b := AddSurface(a, s, close, l, gen, base).value;
            var n := |a.children|;
            var cs := SurfaceChildList(s, close, l, gen, base + n);
            && |b.children| == n + 1 + |s.subSurfaces|
            && b.children[..n] == a.children
            && forall k :: 0 <= k <= |s.subSurfaces| ==> b.children[n + k] == cs[k]
  {
    SurfaceAppends(a, s, close, l, gen, base);
    SurfaceOwnChild(s, close, l, gen, base + |a.children|);
  }

  /**
   * A shading surface that is fine adds one geometry and one child
   * "<name> 0" showing it with its type's shading material and its user data.
   */
  lemma ShadeChild(a: Assembly, sh: ShadingSurface, close: Closeness, l: Lookups, gen: nat -> string, base: nat)
    requires ShadeOk(sh, l)
    ensures AddShade(a, sh, close, l, gen, base)
            == Success(Assembly(a.geometries + [MeshGeometry(sh.handle, sh.triangles, close)],
                                a.children + [SceneChild(FormatUuid(gen(base + |a.children|)), sh.name + " 0", "Mesh",
                                                         FormatUuid(sh.handle),
                                                         ShadingMaterial(ShadingType(sh) + "Shading", l).value.uuid,
                                                         IdentityMatrix(), ShadeUserData(sh))]))
  {
    var gs := ShadeGeometries(sh, close).value;
    assert gs == GeometrySet([MeshGeometry(sh.handle, sh.triangles, close)], [ShadeUserData(sh)]);
    assert ShadingPick(l)(0, gs.userDatas[0]) == ShadingMaterial(ShadingType(sh) + "Shading", l);
    AddChildrenResult(a, sh.name, gs, ShadingPick(l), gen, base, 1);
    var cs := NewChildren(sh.name, gs, ShadingPick(l), gen, base + |a.children|, 1);
    NewChildrenAt(sh.name, gs, ShadingPick(l), gen, base + |a.children|, 1, 0);
    assert Digits(0, 10) == "0";
    assert gs.geometries[..1] == [MeshGeometry(sh.handle, sh.triangles, close)];
    assert cs == [cs[0]];
    assert AllPicked(gs, ShadingPick(l), 1);
    assert cs[0] == SceneChild(FormatUuid(gen(base + |a.children|)), sh.name + " 0", "Mesh",
                               FormatUuid(sh.handle),
                               ShadingMaterial(ShadingType(sh) + "Shading", l).value.uuid,
                               IdentityMatrix(), ShadeUserData(sh));
    assert AddShade(a, sh, close, l, gen, base) == AddChildren(a, sh.name, gs, ShadingPick(l), gen, base, 1);
  }
}
