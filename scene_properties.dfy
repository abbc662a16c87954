/**
 * What build_scene promises about the scene it returns: when it raises,
 * how the children line up with the geometries and the UUIDs, how many
 * children each object gets, and which material each one shows.
 */
module SceneProperties {
  import opened Wrappers
  import opened Numerals
  import opened Formats
  import opened Vertices
  import opened Materials
  import opened Meshes
  import opened Scenes

  // ---------------------------------------------------------------------
  // Material choice on the material list build_materials returns
  // ---------------------------------------------------------------------

  /** The surface types build_scene has a material for, compared after upcasing. */
  predicate KnownSurfaceType(surfaceType: string)
  {
    var t := Upcase(surfaceType);
    t == "FLOOR" || t == "WALL" || t == "ROOFCEILING"
  }

  /** The shading types build_scene has a material for: those mentioning Site, Building or Space. */
  predicate KnownShadingType(surfaceType: string)
  {
    Matches(surfaceType, "Site") || Matches(surfaceType, "Building") || Matches(surfaceType, "Space")
  }

  /** The lookups build_scene makes all find a material. */
  predicate AllFound(l: Lookups)
  {
    && l.floor.Some? && l.wall.Some? && l.roof.Some? && l.window.Some? && l.door.Some?
    && l.siteShading.Some? && l.buildingShading.Some? && l.spaceShading.Some?
  }

  /** In the material list build_materials returns, every lookup finds a material. */
  lemma CatalogFindsAll(gen: nat -> string, next: nat)
    ensures AllFound(LookUp(Catalog(gen, next)))
  {
    CatalogLookUp(gen, next);
  }

  /** When every lookup finds a material, a surface gets one exactly when its type is known. */
  lemma SurfaceMaterialFound(t: string, l: Lookups)
    requires AllFound(l)
    ensures SurfaceMaterial(t, l).Some? <==> KnownSurfaceType(t)
  {
  }

  /** When every lookup finds a material, a sub-surface always gets one. */
  lemma SubSurfaceMaterialFound(t: string, l: Lookups)
    requires AllFound(l)
    ensures SubSurfaceMaterial(t, l).Some?
  {
  }

  /** When every lookup finds a material, a shading surface gets one exactly when its type is known. */
  lemma ShadingMaterialFound(t: string, l: Lookups)
    requires AllFound(l)
    ensures ShadingMaterial(t, l).Some? <==> KnownShadingType(t)
  {
  }

  /** Upcasing the surface type names of the model library. */
  lemma UpcaseExamples()
    ensures Upcase("Floor") == "FLOOR" && Upcase("Wall") == "WALL"
    ensures Upcase("RoofCeiling") == "ROOFCEILING" && Upcase("roofceiling") == "ROOFCEILING"
  {
  }

  /** Floor, Wall, RoofCeiling and roofceiling take the floor, wall, roof and roof lookups. */
  lemma SurfaceMaterialExamples(l: Lookups)
    ensures SurfaceMaterial("Floor", l) == l.floor
    ensures SurfaceMaterial("Wall", l) == l.wall
    ensures SurfaceMaterial("RoofCeiling", l) == l.roof
    ensures SurfaceMaterial("roofceiling", l) == l.roof
  {
    UpcaseExamples();
  }

  /** Letter case does not matter: a type chooses the same material as its upcased spelling. */
  lemma SurfaceMaterialIgnoresCase(t: string, l: Lookups)
    ensures SurfaceMaterial(t, l) == SurfaceMaterial(Upcase(t), l)
  {
    UpcaseProperties(t);
  }

  /** Fixed and operable windows take the window lookup. */
  lemma WindowsTakeWindowMaterial(l: Lookups)
    ensures SubSurfaceMaterial("FixedWindow", l) == l.window
    ensures SubSurfaceMaterial("OperableWindow", l) == l.window
  {
    MatchAt("FixedWindow", "Window", 5);
    MatchAt("OperableWindow", "Window", 8);
  }

  /** A glass door mentions Glass, so it takes the window lookup, not the door one. */
  lemma GlassDoorTakesWindowMaterial(l: Lookups)
    ensures SubSurfaceMaterial("GlassDoor", l) == l.window
  {
    MatchAt("GlassDoor", "Glass", 0);
  }

  /** Doors take the door lookup. */
  lemma DoorsTakeDoorMaterial(l: Lookups)
    ensures SubSurfaceMaterial("Door", l) == l.door
    ensures SubSurfaceMaterial("OverheadDoor", l) == l.door
  {
    DoorHasNeither();
    OverheadDoorHasNoWindow();
    OverheadDoorHasNoGlass();
  }

  lemma DoorHasNeither()
    ensures !Matches("Door", "Window") && !Matches("Door", "Glass")
  {
    NoMatch("Door", "Window", 0);
    NoMatch("Door", "Glass", 0);
  }

  lemma OverheadDoorHasNoWindow()
    ensures !Matches("OverheadDoor", "Window")
  {
    NoMatch("OverheadDoor", "Window", 0);
  }

  lemma OverheadDoorHasNoGlass()
    ensures !Matches("OverheadDoor", "Glass")
  {
    NoMatch("OverheadDoor", "Glass", 0);
  }

  /** A skylight mentions neither Window nor Glass, so it takes the door lookup. */
  lemma SkylightTakesDoorMaterial(l: Lookups)
    ensures SubSurfaceMaterial("Skylight", l) == l.door
  {
    NoMatch("Skylight", "Window", 0);
    NoMatch("Skylight", "Glass", 0);
  }

  /** Site shading takes the site shading lookup. */
  lemma SiteShadingMaterial(l: Lookups)
    ensures ShadingMaterial("SiteShading", l) == l.siteShading
  {
    MatchAt("SiteShading", "Site", 0);
  }

  /** Building shading takes the building shading lookup. */
  lemma BuildingShadingMaterial(l: Lookups)
    ensures ShadingMaterial("BuildingShading", l) == l.buildingShading
  {
    BuildingShadingHasNoSite();
    BuildingShadingHasBuilding();
  }

  lemma BuildingShadingHasNoSite()
    ensures !Matches("BuildingShading", "Site")
  {
    NoMatch("BuildingShading", "Site", 2);
  }

  lemma BuildingShadingHasBuilding()
    ensures Matches("BuildingShading", "Building")
  {
    MatchAt("BuildingShading", "Building", 0);
  }

  /** Space shading takes the space shading lookup. */
  lemma SpaceShadingMaterial(l: Lookups)
    ensures ShadingMaterial("SpaceShading", l) == l.spaceShading
  {
    SpaceShadingHasNoSite();
    SpaceShadingHasNoBuilding();
    MatchAt("SpaceShading", "Space", 0);
  }

  lemma SpaceShadingHasNoSite()
    ensures !Matches("SpaceShading", "Site")
  {
    NoMatch("SpaceShading", "Site", 2);
  }

  lemma SpaceShadingHasNoBuilding()
    ensures !Matches("SpaceShading", "Building")
  {
    NoMatch("SpaceShading", "Building", 0);
  }

  // ---------------------------------------------------------------------
  // When build_scene raises
  // ---------------------------------------------------------------------

  /** A surface the surface loop gets through: it triangulates, and it and each of its sub-surfaces get a material. */
  predicate SurfaceOk(s: Surface, l: Lookups)
  {
    && |s.triangles| > 0
    && SurfaceMaterial(s.surfaceType, l).Some?
    && forall k :: 0 <= k < |s.subSurfaces| ==> SubSurfaceMaterial(s.subSurfaces[k].subSurfaceType, l).Some?
  }

  /** A shading surface the shading loop gets through. */
  predicate ShadeOk(sh: ShadingSurface, l: Lookups)
  {
    |sh.triangles| > 0 && ShadingMaterial(ShadingType(sh) + "Shading", l).Some?
  }

  /** The surface pick finds a material for every geometry of a triangulated surface exactly when the surface is fine. */
  lemma SurfacePicked(s: Surface, close: Closeness, l: Lookups)
    requires |s.triangles| > 0
    ensures var gs := SurfaceGeometries(s, close).value;
            AllPicked(gs, SurfacePick(s, l), |gs.geometries|) <==> SurfaceOk(s, l)
  {
    SurfaceGeometriesShape(s, close);
    var gs := SurfaceGeometries(s, close).value;
    var pick := SurfacePick(s, l);
    if AllPicked(gs, pick, |gs.geometries|) {
      assert pick(0, gs.userDatas[0]).Some?;
      forall k | 0 <= k < |s.subSurfaces|
        ensures SubSurfaceMaterial(s.subSurfaces[k].subSurfaceType, l).Some?
      {
        assert pick(k + 1, gs.userDatas[k + 1]).Some?;
      }
    }
    if SurfaceOk(s, l) {
      forall i | 0 <= i < |gs.geometries|
        ensures pick(i, gs.userDatas[i]).Some?
      {
        if i > 0 {
          assert gs.userDatas[i].surfaceType == s.subSurfaces[i - 1].subSurfaceType;
        }
      }
    }
  }

  /** One surface raises exactly when it does not triangulate or one of its materials is nil. */
  lemma AddSurfaceSucceeds(a: Assembly, s: Surface, close: Closeness, l: Lookups, gen: nat -> string, base: nat)
    ensures AddSurface(a, s, close, l, gen, base).Success? <==> SurfaceOk(s, l)
  {
    SurfaceGeometriesShape(s, close);
    if |s.triangles| > 0 {
      var gs := SurfaceGeometries(s, close).value;
      AddChildrenResult(a, s.name, gs, SurfacePick(s, l), gen, base, |gs.geometries|);
      SurfacePicked(s, close, l);
    }
  }

  /** One shading surface raises exactly when it does not triangulate or its type has no material. */
  lemma AddShadeSucceeds(a: Assembly, sh: ShadingSurface, close: Closeness, l: Lookups, gen: nat -> string, base: nat)
    ensures AddShade(a, sh, close, l, gen, base).Success? <==> ShadeOk(sh, l)
  {
    ShadeGeometriesShape(sh, close);
    if |sh.triangles| > 0 {
      var gs := ShadeGeometries(sh, close).value;
      AddChildrenResult(a, sh.name, gs, ShadingPick(l), gen, base, 1);
      assert gs.userDatas[0].surfaceType == ShadingType(sh) + "Shading";
    }
  }

  /** A loop whose step fails exactly on the elements that are not `ok` gets through exactly when every element is. */
  lemma {:induction false} FoldSucceeds<T>(a: Assembly, xs: seq<T>, step: (Assembly, T) -> Result<Assembly, SceneError>,
                                          ok: T -> bool)
    requires forall b: Assembly, x: T :: step(b, x).Success? <==> ok(x)
    ensures Fold(a, xs, step).Success? <==> forall i :: 0 <= i < |xs| ==> ok(xs[i])
    decreases |xs|
  {
    if xs != [] {
      var front := xs[..|xs| - 1];
      FoldSucceeds(a, front, step, ok);
      assert forall i :: 0 <= i < |front| ==> front[i] == xs[i];
    }
  }

  /** A failing step after `k` good elements decides the loop's result. */
  lemma FoldFirstFailure<T>(a: Assembly, xs: seq<T>, step: (Assembly, T) -> Result<Assembly, SceneError>,
                            ok: T -> bool, k: nat)
    requires forall b: Assembly, x: T :: step(b, x).Success? <==> ok(x)
    requires k < |xs| && (forall i :: 0 <= i < k ==> ok(xs[i])) && !ok(xs[k])
    ensures Fold(a, xs[..k], step).Success?
    ensures Fold(a, xs, step) == step(Fold(a, xs[..k], step).value, xs[k])
  {
    FoldSucceeds(a, xs[..k], step, ok);
    FoldFailsAt(a, xs, step, k, Fold(a, xs[..k], step).value);
  }

  /** The inner loop can only raise for a missing material, naming its object. */
  lemma {:induction false} AddChildrenError(a: Assembly, name: string, gs: GeometrySet, pick: Pick,
                                            gen: nat -> string, base: nat, n: nat)
    requires n <= |gs.geometries| && n <= |gs.userDatas|
    ensures AddChildren(a, name, gs, pick, gen, base, n).Failure? ==>
              AddChildren(a, name, gs, pick, gen, base, n).error == MissingMaterial(name)
    decreases n
  {
    if n > 0 {
      AddChildrenError(a, name, gs, pick, gen, base, n - 1);
    }
  }

  /** A surface that raises reports a failed triangulation if it has no triangles, else a missing material. */
  lemma AddSurfaceError(a: Assembly, s: Surface, close: Closeness, l: Lookups, gen: nat -> string, base: nat)
    requires !SurfaceOk(s, l)
    ensures AddSurface(a, s, close, l, gen, base)
            == Failure(if |s.triangles| == 0 then TriangulationFailed(s.name) else MissingMaterial(s.name))
  {
    AddSurfaceSucceeds(a, s, close, l, gen, base);
    SurfaceGeometriesShape(s, close);
    if |s.triangles| > 0 {
      var gs := SurfaceGeometries(s, close).value;
      AddChildrenError(a, s.name, gs, SurfacePick(s, l), gen, base, |gs.geometries|);
    }
  }

  /** Likewise for a shading surface. */
  lemma AddShadeError(a: Assembly, sh: ShadingSurface, close: Closeness, l: Lookups, gen: nat -> string, base: nat)
    requires !ShadeOk(sh, l)
    ensures AddShade(a, sh, close, l, gen, base)
            == Failure(if |sh.triangles| == 0 then TriangulationFailed(sh.name) else MissingMaterial(sh.name))
  {
    AddShadeSucceeds(a, sh, close, l, gen, base);
    ShadeGeometriesShape(sh, close);
    if |sh.triangles| > 0 {
      var gs := ShadeGeometries(sh, close).value;
      AddChildrenError(a, sh.name, gs, ShadingPick(l), gen, base, 1);
    }
  }

  /** A surface build_scene renders: it triangulates and its type, upcased, is FLOOR, WALL or ROOFCEILING. */
  predicate Renderable(s: Surface)
  {
    |s.triangles| > 0 && KnownSurfaceType(s.surfaceType)
  }

  /** A shading surface build_scene renders: it triangulates and its group type mentions Site, Building or Space. */
  predicate ShadeRenderable(sh: ShadingSurface)
  {
    |sh.triangles| > 0 && KnownShadingType(ShadingType(sh) + "Shading")
  }

  lemma CatalogSurfaceOk(gen: nat -> string, next: nat, s: Surface)
    ensures SurfaceOk(s, LookUp(Catalog(gen, next))) <==> Renderable(s)
  {
    var l := LookUp(Catalog(gen, next));
    CatalogFindsAll(gen, next);
    SurfaceMaterialFound(s.surfaceType, l);
    forall k | 0 <= k < |s.subSurfaces|
      ensures SubSurfaceMaterial(s.subSurfaces[k].subSurfaceType, l).Some?
    {
      SubSurfaceMaterialFound(s.subSurfaces[k].subSurfaceType, l);
    }
  }

  lemma CatalogShadeOk(gen: nat -> string, next: nat, sh: ShadingSurface)
    ensures ShadeOk(sh, LookUp(Catalog(gen, next))) <==> ShadeRenderable(sh)
  {
    CatalogFindsAll(gen, next);
    ShadingMaterialFound(ShadingType(sh) + "Shading", LookUp(Catalog(gen, next)));
  }

  /** Every surface and every shading surface of the model is fine. */
  predicate AllOk(model: Model, l: Lookups)
  {
    && (forall i :: 0 <= i < |model.surfaces| ==> SurfaceOk(model.surfaces[i], l))
    && (forall j :: 0 <= j < |model.shadingSurfaces| ==> ShadeOk(model.shadingSurfaces[j], l))
  }

  /** Every surface and every shading surface of the model is renderable. */
  predicate AllRenderable(model: Model)
  {
    && (forall i :: 0 <= i < |model.surfaces| ==> Renderable(model.surfaces[i]))
    && (forall j :: 0 <= j < |model.shadingSurfaces| ==> ShadeRenderable(model.shadingSurfaces[j]))
  }

  /** Both loops get through exactly when every surface and every shading surface is fine. */
  lemma CollectSucceeds(model: Model, close: Closeness, l: Lookups, gen: nat -> string, base: nat)
    ensures Collect(model, close, l, gen, base).Success? <==> AllOk(model, l)
  {
    var surfaceOk := (s: Surface) => SurfaceOk(s, l);
    var shadeOk := (sh: ShadingSurface) => ShadeOk(sh, l);
    forall b: Assembly, x: Surface
      ensures SurfaceStep(close, l, gen, base)(b, x).Success? <==> surfaceOk(x)
    {
      AddSurfaceSucceeds(b, x, close, l, gen, base);
    }
    forall b: Assembly, x: ShadingSurface
      ensures ShadeStep(close, l, gen, base)(b, x).Success? <==> shadeOk(x)
    {
      AddShadeSucceeds(b, x, close, l, gen, base);
    }
    var surfaces := Fold(Assembly([], []), model.surfaces, SurfaceStep(close, l, gen, base));
    FoldSucceeds(Assembly([], []), model.surfaces, SurfaceStep(close, l, gen, base), surfaceOk);
    if surfaces.Success? {
      FoldSucceeds(surfaces.value, model.shadingSurfaces, ShadeStep(close, l, gen, base), shadeOk);
    }
  }

  /** The first surface that is not fine is the one the loops' error names. */
  lemma CollectFailsAtSurface(model: Model, close: Closeness, l: Lookups, gen: nat -> string, base: nat, k: nat)
    requires k < |model.surfaces| && (forall i :: 0 <= i < k ==> SurfaceOk(model.surfaces[i], l))
    requires !SurfaceOk(model.surfaces[k], l)
    ensures var s := model.surfaces[k];
            Collect(model, close, l, gen, base)
            == Failure(if |s.triangles| == 0 then TriangulationFailed(s.name) else MissingMaterial(s.name))
  {
    var step := SurfaceStep(close, l, gen, base);
    var surfaceOk := (s: Surface) => SurfaceOk(s, l);
    forall b: Assembly, x: Surface
      ensures step(b, x).Success? <==> surfaceOk(x)
    {
      AddSurfaceSucceeds(b, x, close, l, gen, base);
    }
    FoldFirstFailure(Assembly([], []), model.surfaces, step, surfaceOk, k);
    var b := Fold(Assembly([], []), model.surfaces[..k], step).value;
    AddSurfaceError(b, model.surfaces[k], close, l, gen, base);
  }

  /** When every surface is fine, the first shading surface that is not is the one the error names. */
  lemma CollectFailsAtShade(model: Model, close: Closeness, l: Lookups, gen: nat -> string, base: nat, k: nat)
    requires forall i :: 0 <= i < |model.surfaces| ==> SurfaceOk(model.surfaces[i], l)
    requires k < |model.shadingSurfaces| && (forall j :: 0 <= j < k ==> ShadeOk(model.shadingSurfaces[j], l))
    requires !ShadeOk(model.shadingSurfaces[k], l)
    ensures var sh := model.shadingSurfaces[k];
            Collect(model, close, l, gen, base)
            == Failure(if |sh.triangles| == 0 then TriangulationFailed(sh.name) else MissingMaterial(sh.name))
  {
    var surfaceOk := (s: Surface) => SurfaceOk(s, l);
    var shadeOk := (sh: ShadingSurface) => ShadeOk(sh, l);
    forall b: Assembly, x: Surface
      ensures SurfaceStep(close, l, gen, base)(b, x).Success? <==> surfaceOk(x)
    {
      AddSurfaceSucceeds(b, x, close, l, gen, base);
    }
    var step := ShadeStep(close, l, gen, base);
    forall b: Assembly, x: ShadingSurface
      ensures step(b, x).Success? <==> shadeOk(x)
    {
      AddShadeSucceeds(b, x, close, l, gen, base);
    }
    FoldSucceeds(Assembly([], []), model.surfaces, SurfaceStep(close, l, gen, base), surfaceOk);
    var a := Fold(Assembly([], []), model.surfaces, SurfaceStep(close, l, gen, base)).value;
    FoldFirstFailure(a, model.shadingSurfaces, step, shadeOk, k);
    var b := Fold(a, model.shadingSurfaces[..k], step).value;
    AddShadeError(b, model.shadingSurfaces[k], close, l, gen, base);
  }

  /** With the catalog's lookups the surfaces that are fine are the renderable ones. */
  lemma CatalogSurfacesOk(gen: nat -> string, next: nat, surfaces: seq<Surface>, k: nat)
    requires k <= |surfaces|
    ensures (forall i :: 0 <= i < k ==> SurfaceOk(surfaces[i], LookUp(Catalog(gen, next))))
            <==> (forall i :: 0 <= i < k ==> Renderable(surfaces[i]))
  {
    forall i | 0 <= i < k {
      CatalogSurfaceOk(gen, next, surfaces[i]);
    }
  }

  lemma CatalogShadesOk(gen: nat -> string, next: nat, shades: seq<ShadingSurface>, k: nat)
    requires k <= |shades|
    ensures (forall j :: 0 <= j < k ==> ShadeOk(shades[j], LookUp(Catalog(gen, next))))
            <==> (forall j :: 0 <= j < k ==> ShadeRenderable(shades[j]))
  {
    forall j | 0 <= j < k {
      CatalogShadeOk(gen, next, shades[j]);
    }
  }

  /**
   * build_scene returns a scene exactly when every surface triangulates
   * with a floor, wall or roof type and every shading surface triangulates
   * with a site, building or space type.
   */
  lemma SceneSucceeds(model: Model, close: Closeness, gen: nat -> string, next: nat)
    ensures SceneOf(model, close, gen, next).Success? <==> AllRenderable(model)
  {
    SceneFromSucceeds(Catalog(gen, next), model, close, gen, ObjectId(model, next));
    CatalogAllOk(model, gen, next);
  }

  /** With the catalog's lookups a model is fine exactly when it is renderable. */
  lemma CatalogAllOk(model: Model, gen: nat -> string, next: nat)
    ensures AllOk(model, LookUp(Catalog(gen, next))) <==> AllRenderable(model)
  {
    CatalogSurfacesOk(gen, next, model.surfaces, |model.surfaces|);
    CatalogShadesOk(gen, next, model.shadingSurfaces, |model.shadingSurfaces|);
  }

  /** From any material list, the scene is built exactly when every surface and shading surface is fine with its lookups. */
  lemma SceneFromSucceeds(materials: seq<Material>, model: Model, close: Closeness, gen: nat -> string, objectId: nat)
    ensures SceneFrom(materials, model, close, gen, objectId).Success? <==> AllOk(model, LookUp(materials))
  {
    CollectSucceeds(model, close, LookUp(materials), gen, objectId + 1);
  }

  /** The first surface that is not renderable is the one build_scene's error names. */
  lemma SceneFailsAtSurface(model: Model, close: Closeness, gen: nat -> string, next: nat, k: nat)
    requires k < |model.surfaces| && (forall i :: 0 <= i < k ==> Renderable(model.surfaces[i]))
    requires !Renderable(model.surfaces[k])
    ensures var s := model.surfaces[k];
            SceneOf(model, close, gen, next)
            == Failure(if |s.triangles| == 0 then TriangulationFailed(s.name) else MissingMaterial(s.name))
  {
    var l := LookUp(Catalog(gen, next));
    CatalogSurfacesOk(gen, next, model.surfaces, k);
    CatalogSurfaceOk(gen, next, model.surfaces[k]);
    CollectFailsAtSurface(model, close, l, gen, ObjectId(model, next) + 1, k);
  }

  /** When every surface is renderable, the first shading surface that is not is the one the error names. */
  lemma SceneFailsAtShade(model: Model, close: Closeness, gen: nat -> string, next: nat, k: nat)
    requires forall i :: 0 <= i < |model.surfaces| ==> Renderable(model.surfaces[i])
    requires k < |model.shadingSurfaces| && (forall j :: 0 <= j < k ==> ShadeRenderable(model.shadingSurfaces[j]))
    requires !ShadeRenderable(model.shadingSurfaces[k])
    ensures var sh := model.shadingSurfaces[k];
            SceneOf(model, close, gen, next)
            == Failure(if |sh.triangles| == 0 then TriangulationFailed(sh.name) else MissingMaterial(sh.name))
  {
    var l := LookUp(Catalog(gen, next));
    CatalogSurfacesOk(gen, next, model.surfaces, |model.surfaces|);
    CatalogShadesOk(gen, next, model.shadingSurfaces, k);
    CatalogShadeOk(gen, next, model.shadingSurfaces[k]);
    CollectFailsAtShade(model, close, l, gen, ObjectId(model, next) + 1, k);
  }
}
