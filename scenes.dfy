/**
 * build_scene: the converter's top level. It builds the material list,
 * then walks the model's surfaces and shading surfaces, turning each
 * triangulated polygon into a geometry and a scene child that shows it
 * with a material chosen from its type.
 *
 * Every call to the model library's UUID generator is `gen(n)` for the
 * next unused `n`: the materials take the first ones, then the scene
 * object, then each child in order.
 */
module Scenes {
  import opened Wrappers
  import opened Numerals
  import opened Formats
  import opened Vertices
  import opened Materials
  import opened Meshes

  // ---------------------------------------------------------------------
  // Text tests on type names
  // ---------------------------------------------------------------------

  /** String#upcase on one character (ASCII letters only). */
  function UpcaseChar(c: char): char
  {
    if 'a' <= c <= 'z' then (c as int - 32) as char else c
  }

  /** String#upcase: every lower-case ASCII letter replaced by its capital. */
  function Upcase(s: string): string
  {
    seq(|s|, i requires 0 <= i < |s| => UpcaseChar(s[i]))
  }

  /**
   * Upcasing keeps the length, leaves no lower-case ASCII letter, keeps
   * every other character, and changes nothing when applied again.
   */
  lemma UpcaseProperties(s: string)
    ensures |Upcase(s)| == |s|
    ensures forall i :: 0 <= i < |s| ==> !('a' <= Upcase(s)[i] <= 'z')
    ensures forall i :: 0 <= i < |s| && !('a' <= s[i] <= 'z') ==> Upcase(s)[i] == s[i]
    ensures forall i :: 0 <= i < |s| && 'a' <= s[i] <= 'z' ==> Upcase(s)[i] == (s[i] as int - 32) as char
    ensures Upcase(Upcase(s)) == Upcase(s)
  {
  }

  /** `/pat/.match(s)` for a pattern of plain letters: scanning from the left for a copy of `pat`. */
  predicate Matches(s: string, pat: string)
    decreases |s|
  {
    if |s| < |pat| then false else pat <= s || Matches(s[1..], pat)
  }

  /** Position `i` of `s` starts a copy of `pat`. */
  predicate OccursAt(s: string, pat: string, i: nat)
  {
    i + |pat| <= |s| && s[i..i + |pat|] == pat
  }

  /** The scan finds `pat` exactly when some position of `s` starts a copy of it. */
  lemma {:induction false} MatchesIff(s: string, pat: string)
    ensures Matches(s, pat) <==> exists i: nat :: OccursAt(s, pat, i)
    decreases |s|
  {
    if |s| >= |pat| {
      if pat <= s {
        assert OccursAt(s, pat, 0);
      } else {
        MatchesIff(s[1..], pat);
        forall i: nat | OccursAt(s[1..], pat, i)
          ensures OccursAt(s, pat, i + 1)
        {
          OccursShift(s, pat, i);
        }
        forall i: nat | OccursAt(s, pat, i)
          ensures i > 0 && OccursAt(s[1..], pat, i - 1)
        {
          assert i != 0;
          OccursShift(s, pat, i - 1);
        }
      }
    }
  }

  /** Dropping the first character moves every occurrence one place to the left. */
  lemma OccursShift(s: string, pat: string, i: nat)
    requires |s| > 0
    ensures OccursAt(s[1..], pat, i) <==> OccursAt(s, pat, i + 1)
  {
    if i + 1 + |pat| <= |s| {
      assert s[1..][i..i + |pat|] == s[i + 1..i + 1 + |pat|];
    }
  }

  /** A text that lacks one of the pattern's characters does not match it. */
  lemma NoMatch(s: string, pat: string, j: nat)
    requires j < |pat| && pat[j] !in s
    ensures !Matches(s, pat)
  {
    MatchesIff(s, pat);
    forall i: nat
      ensures !OccursAt(s, pat, i)
    {
      if i + |pat| <= |s| {
        assert s[i..i + |pat|][j] == s[i + j] != pat[j];
      }
    }
  }

  /** A text that holds the pattern at position `i` matches it. */
  lemma MatchAt(s: string, pat: string, i: nat)
    requires OccursAt(s, pat, i)
    ensures Matches(s, pat)
  {
    MatchesIff(s, pat);
  }

  // ---------------------------------------------------------------------
  // Choosing materials
  // ---------------------------------------------------------------------

  /** The materials build_scene looks up by name before its loops; nil is None. */
  datatype Lookups = Lookups(
    floor: Option<Material>,
    wall: Option<Material>,
    roof: Option<Material>,
    window: Option<Material>,
    door: Option<Material>,
    siteShading: Option<Material>,
    buildingShading: Option<Material>,
    spaceShading: Option<Material>)

  function LookUp(materials: seq<Material>): Lookups
  {
    Lookups(Find(materials, "Floor"), Find(materials, "Wall"), Find(materials, "Roof"),
            Find(materials, "Window"), Find(materials, "Door"),
            Find(materials, "SiteShading"), Find(materials, "BuildingShading"), Find(materials, "SpaceShading"))
  }

  /** In the material list build_materials returns, every lookup finds its palette entry. */
  lemma CatalogLookUp(gen: nat -> string, next: nat)
    ensures var c := Catalog(gen, next);
            LookUp(c) == Lookups(Some(c[0]), Some(c[2]), Some(c[4]), Some(c[6]), Some(c[8]),
                                 Some(c[10]), Some(c[12]), Some(c[14]))
  {
    CatalogLookups(gen, next);
  }

  /** A surface's own material: by its upcased type, FLOOR, WALL or ROOFCEILING; nil otherwise. */
  function SurfaceMaterial(surfaceType: string, l: Lookups): Option<Material>
  {
    var t := Upcase(surfaceType);
    if t == "FLOOR" then l.floor
    else if t == "WALL" then l.wall
    else if t == "ROOFCEILING" then l.roof
    else None
  }

  /** A sub-surface's material: the window material when its type mentions Window or Glass, else the door material. */
  function SubSurfaceMaterial(subSurfaceType: string, l: Lookups): Option<Material>
  {
    if Matches(subSurfaceType, "Window") || Matches(subSurfaceType, "Glass") then l.window else l.door
  }

  /** A shading surface's material: by the first of Site, Building, Space its type mentions; nil otherwise. */
  function ShadingMaterial(surfaceType: string, l: Lookups): Option<Material>
  {
    if Matches(surfaceType, "Site") then l.siteShading
    else if Matches(surfaceType, "Building") then l.buildingShading
    else if Matches(surfaceType, "Space") then l.spaceShading
    else None
  }

  // ---------------------------------------------------------------------
  // The scene records
  // ---------------------------------------------------------------------

  /** The SceneChild record; `kind` is its JSON key "type". */
  datatype SceneChild = SceneChild(
    uuid: string,
    name: string,
    kind: string,
    geometry: string,
    material: string,
    matrix: seq<int>,
    userData: UserData)

  /** The scene object: a hash with a UUID, the type "Scene", a matrix and the children. */
  datatype SceneObject = SceneObject(uuid: string, kind: string, matrix: seq<int>, children: seq<SceneChild>)

  /** The Scene record; `root` is its JSON key "object". */
  datatype Scene = Scene(geometries: seq<Geometry>, materials: seq<Material>, root: SceneObject)

  /**
   * Why build_scene raises instead of returning: a polygon whose
   * triangulation failed (the bare empty list destructures to nil), or a
   * child whose material is nil.
   */
  datatype SceneError = TriangulationFailed(name: string) | MissingMaterial(name: string)

  /** What build_scene reads from the model. */
  datatype Model = Model(
    surfaces: seq<Surface>,
    shadingSurfaces: seq<ShadingSurface>,
    constructions: seq<Rendered>,
    thermalZones: seq<Rendered>,
    spaceTypes: seq<Rendered>,
    buildingStories: seq<Rendered>,
    defaultColor: RenderingColor)

  /** The geometries and children collected so far. */
  datatype Assembly = Assembly(geometries: seq<Geometry>, children: seq<SceneChild>)

  /** "#{name} #{i}": the object's name, a space, and the position of the geometry. */
  function ChildName(name: string, i: nat): string
  {
    name + " " + Digits(i, 10)
  }

  /** A child's name is the object's name, a space, and digits that read back as the position. */
  lemma ChildNameReadsBack(name: string, i: nat)
    ensures var c := ChildName(name, i);
            && c[..|name| + 1] == name + " "
            && IsDigits(c[|name| + 1..], 10) && Value(c[|name| + 1..], 10) == i
  {
    DigitsAreDigits(i, 10);
    DigitsRoundTrip(i, 10);
    assert ChildName(name, i)[|name| + 1..] == Digits(i, 10);
  }

  /** So two children of one object never share a name. */
  lemma ChildNamesDistinct(name: string, i: nat, j: nat)
    requires ChildName(name, i) == ChildName(name, j)
    ensures i == j
  {
    ChildNameReadsBack(name, i);
    ChildNameReadsBack(name, j);
  }

  /** The child for geometry `i` of the object called `name`. */
  function Child(name: string, i: nat, g: Geometry, u: UserData, m: Material, uuid: string): SceneChild
  {
    SceneChild(FormatUuid(uuid), ChildName(name, i), "Mesh", g.uuid, m.uuid, IdentityMatrix(), u)
  }

  /** How an object's loop picks the material of its geometry `i` from that geometry's user data. */
  type Pick = (nat, UserData) -> Option<Material>

  /** The pick of the surface loop: the surface's own material first, then window or door. */
  function SurfacePick(s: Surface, l: Lookups): Pick
  {
    (i: nat, u: UserData) => if i == 0 then SurfaceMaterial(s.surfaceType, l) else SubSurfaceMaterial(u.surfaceType, l)
  }

  /** The pick of the shading loop. */
  function ShadingPick(l: Lookups): Pick
  {
    (i: nat, u: UserData) => ShadingMaterial(u.surfaceType, l)
  }

  /**
   * The inner loop over one object's first `n` geometries: each is
   * collected, then gets a child with the next UUID; a nil material stops
   * everything. `base` is the position of the first child's UUID.
   */
  function AddChildren(a: Assembly, name: string, gs: GeometrySet, pick: Pick, gen: nat -> string, base: nat, n: nat)
    : Result<Assembly, SceneError>
    requires n <= |gs.geometries| && n <= |gs.userDatas|
  {
    if n == 0 then Success(a)
    else match AddChildren(a, name, gs, pick, gen, base, n - 1)
      case Failure(e) => Failure(e)
      case Success(b) =>
        var g, u := gs.geometries[n - 1], gs.userDatas[n - 1];
        var m := pick(n - 1, u);
        if m.None? then Failure(MissingMaterial(name))
        else Success(Assembly(b.geometries + [g], b.children + [Child(name, n - 1, g, u, m.value, gen(base + |b.children|))]))
  }

  /** Every one of the first `n` geometries of `gs` gets a material. */
  predicate AllPicked(gs: GeometrySet, pick: Pick, n: nat)
    requires n <= |gs.userDatas|
  {
    forall i :: 0 <= i < n ==> pick(i, gs.userDatas[i]).Some?
  }

  /** The children of the first `n` geometries of `gs`, the first of them taking UUID `gen(first)`. */
  function NewChildren(name: string, gs: GeometrySet, pick: Pick, gen: nat -> string, first: nat, n: nat)
    : (cs: seq<SceneChild>)
    requires n <= |gs.geometries| && n <= |gs.userDatas| && AllPicked(gs, pick, n)
    ensures |cs| == n
  {
    if n == 0 then []
    else
      var g, u := gs.geometries[n - 1], gs.userDatas[n - 1];
      NewChildren(name, gs, pick, gen, first, n - 1) + [Child(name, n - 1, g, u, pick(n - 1, u).value, gen(first + n - 1))]
  }

  /**
   * Child `i` is named after the object and `i`, shows geometry `i` with
   * the material picked for it, carries that geometry's user data, and
   * takes the `i`-th UUID from `first`.
   */
  lemma {:induction false} NewChildrenAt(name: string, gs: GeometrySet, pick: Pick, gen: nat -> string,
                                         first: nat, n: nat, i: nat)
    requires n <= |gs.geometries| && n <= |gs.userDatas| && AllPicked(gs, pick, n)
    requires i < n
    ensures var c := NewChildren(name, gs, pick, gen, first, n)[i];
            && c.uuid == FormatUuid(gen(first + i))
            && c.name == name + " " + Digits(i, 10)
            && c.kind == "Mesh"
            && c.geometry == gs.geometries[i].uuid
            && c.material == pick(i, gs.userDatas[i]).value.uuid
            && c.matrix == IdentityMatrix()
            && c.userData == gs.userDatas[i]
    decreases n
  {
    if i < n - 1 {
      NewChildrenAt(name, gs, pick, gen, first, n - 1, i);
    }
  }

  /**
   * The inner loop succeeds exactly when every geometry's material is
   * found, and then it appends the geometries and one child for each.
   */
  lemma AddChildrenResult(a: Assembly, name: string, gs: GeometrySet, pick: Pick,
                          gen: nat -> string, base: nat, n: nat)
    requires n <= |gs.geometries| && n <= |gs.userDatas|
    ensures AddChildren(a, name, gs, pick, gen, base, n).Success? <==> AllPicked(gs, pick, n)
    ensures AddChildren(a, name, gs, pick, gen, base, n).Success? ==>
              AddChildren(a, name, gs, pick, gen, base, n).value
              == Assembly(a.geometries + gs.geometries[..n],
                          a.children + NewChildren(name, gs, pick, gen, base + |a.children|, n))
  {
    AddChildrenSucceeds(a, name, gs, pick, gen, base, n);
    if AllPicked(gs, pick, n) {
      AddChildrenValue(a, name, gs, pick, gen, base, n);
    }
  }

  lemma {:induction false} AddChildrenSucceeds(a: Assembly, name: string, gs: GeometrySet, pick: Pick,
                                               gen: nat -> string, base: nat, n: nat)
    requires n <= |gs.geometries| && n <= |gs.userDatas|
    ensures AddChildren(a, name, gs, pick, gen, base, n).Success? <==> AllPicked(gs, pick, n)
    decreases n
  {
    if n > 0 {
      AddChildrenSucceeds(a, name, gs, pick, gen, base, n - 1);
    }
  }

  lemma {:induction false} AddChildrenValue(a: Assembly, name: string, gs: GeometrySet, pick: Pick,
                                            gen: nat -> string, base: nat, n: nat)
    requires n <= |gs.geometries| && n <= |gs.userDatas| && AllPicked(gs, pick, n)
    ensures AddChildren(a, name, gs, pick, gen, base, n)
            == Success(Assembly(a.geometries + gs.geometries[..n],
                                a.children + NewChildren(name, gs, pick, gen, base + |a.children|, n)))
    decreases n
  {
    if n > 0 {
      AddChildrenValue(a, name, gs, pick, gen, base, n - 1);
      var b := Assembly(a.geometries + gs.geometries[..n - 1],
                        a.children + NewChildren(name, gs, pick, gen, base + |a.children|, n - 1));
      AddChildrenStep(a, b, name, gs, pick, gen, base, n);
      NewChildrenStep(a, b, name, gs, pick, gen, base, n);
    } else {
      assert a.geometries + gs.geometries[..0] == a.geometries;
      assert a.children + [] == a.children;
    }
  }

  /** One more geometry, once the earlier ones have succeeded with `b`. */
  lemma AddChildrenStep(a: Assembly, b: Assembly, name: string, gs: GeometrySet, pick: Pick,
                        gen: nat -> string, base: nat, n: nat)
    requires 0 < n <= |gs.geometries| && n <= |gs.userDatas|
    requires AddChildren(a, name, gs, pick, gen, base, n - 1) == Success(b)
    requires pick(n - 1, gs.userDatas[n - 1]).Some?
    ensures var g, u := gs.geometries[n - 1], gs.userDatas[n - 1];
            AddChildren(a, name, gs, pick, gen, base, n)
            == Success(Assembly(b.geometries + [g],
                                b.children + [Child(name, n - 1, g, u, pick(n - 1, u).value, gen(base + |b.children|))]))
  {
  }

  /** The assembly after the step above is `a` followed by the first `n` geometries and their children. */
  lemma NewChildrenStep(a: Assembly, b: Assembly, name: string, gs: GeometrySet, pick: Pick,
                        gen: nat -> string, base: nat, n: nat)
    requires 0 < n <= |gs.geometries| && n <= |gs.userDatas| && AllPicked(gs, pick, n)
    requires b == Assembly(a.geometries + gs.geometries[..n - 1],
                           a.children + NewChildren(name, gs, pick, gen, base + |a.children|, n - 1))
    ensures var g, u := gs.geometries[n - 1], gs.userDatas[n - 1];
            Assembly(b.geometries + [g],
                     b.children + [Child(name, n - 1, g, u, pick(n - 1, u).value, gen(base + |b.children|))])
            == Assembly(a.geometries + gs.geometries[..n],
                        a.children + NewChildren(name, gs, pick, gen, base + |a.children|, n))
  {
    var first := base + |a.children|;
    var earlier := NewChildren(name, gs, pick, gen, first, n - 1);
    var g := gs.geometries[n - 1];
    AppendLast(a.children, earlier, NewChildren(name, gs, pick, gen, first, n)[n - 1]);
    AppendLast(a.geometries, gs.geometries[..n - 1], g);
    assert gs.geometries[..n - 1] + [g] == gs.geometries[..n];
  }

  lemma AppendLast<T>(xs: seq<T>, ys: seq<T>, z: T)
    ensures xs + ys + [z] == xs + (ys + [z]) && |xs + ys| == |xs| + |ys|
  {
  }

  /** Once the inner loop has failed, the later geometries do not change the outcome. */
  lemma {:induction false} ChildrenFailurePersists(a: Assembly, name: string, gs: GeometrySet, pick: Pick,
                                                   gen: nat -> string, base: nat, i: nat, n: nat)
    requires i <= n <= |gs.geometries| && n <= |gs.userDatas|
    requires AddChildren(a, name, gs, pick, gen, base, i).Failure?
    ensures AddChildren(a, name, gs, pick, gen, base, n) == AddChildren(a, name, gs, pick, gen, base, i)
    decreases n
  {
    if n > i {
      ChildrenFailurePersists(a, name, gs, pick, gen, base, i, n - 1);
    }
  }

  // ---------------------------------------------------------------------
  // The two object loops
  // ---------------------------------------------------------------------

  /** One surface of the surface loop: its geometries (or the crash on a failed triangulation), then its children. */
  function AddSurface(a: Assembly, s: Surface, close: Closeness, l: Lookups, gen: nat -> string, base: nat)
    : Result<Assembly, SceneError>
  {
    match SurfaceGeometries(s, close)
    case None => Failure(TriangulationFailed(s.name))
    case Some(gs) => AddChildren(a, s.name, gs, SurfacePick(s, l), gen, base, |gs.geometries|)
  }

  /** One shading surface of the shading loop. */
  function AddShade(a: Assembly, sh: ShadingSurface, close: Closeness, l: Lookups, gen: nat -> string, base: nat)
    : Result<Assembly, SceneError>
  {
    match ShadeGeometries(sh, close)
    case None => Failure(TriangulationFailed(sh.name))
    case Some(gs) => AddChildren(a, sh.name, gs, ShadingPick(l), gen, base, |gs.geometries|)
  }

  function SurfaceStep(close: Closeness, l: Lookups, gen: nat -> string, base: nat)
    : (Assembly, Surface) -> Result<Assembly, SceneError>
  {
    (a: Assembly, s: Surface) => AddSurface(a, s, close, l, gen, base)
  }

  function ShadeStep(close: Closeness, l: Lookups, gen: nat -> string, base: nat)
    : (Assembly, ShadingSurface) -> Result<Assembly, SceneError>
  {
    (a: Assembly, sh: ShadingSurface) => AddShade(a, sh, close, l, gen, base)
  }

  /** A loop over `xs` that stops at the first failing step. */
  function Fold<T>(a: Assembly, xs: seq<T>, step: (Assembly, T) -> Result<Assembly, SceneError>)
    : Result<Assembly, SceneError>
    decreases |xs|
  {
    if xs == [] then Success(a)
    else match Fold(a, xs[..|xs| - 1], step)
      case Failure(e) => Failure(e)
      case Success(b) => step(b, xs[|xs| - 1])
  }

  /** The position of the scene object's UUID: right after every UUID build_materials takes. */
  function ObjectId(model: Model, next: nat): nat
  {
    next + |Swatches| + |model.constructions| + |model.thermalZones| + |model.spaceTypes| + |model.buildingStories|
  }

  /** Both object loops: every surface, then every shading surface, from an empty assembly. */
  function Collect(model: Model, close: Closeness, l: Lookups, gen: nat -> string, base: nat): Result<Assembly, SceneError>
  {
    match Fold(Assembly([], []), model.surfaces, SurfaceStep(close, l, gen, base))
    case Failure(e) => Failure(e)
    case Success(a) => Fold(a, model.shadingSurfaces, ShadeStep(close, l, gen, base))
  }

  /**
   * build_scene, or the error it raises: the materials, then every surface
   * and every shading surface in order, the children's UUIDs following the
   * scene object's.
   */
  function SceneOf(model: Model, close: Closeness, gen: nat -> string, next: nat): Result<Scene, SceneError>
  {
    SceneFrom(Catalog(gen, next), model, close, gen, ObjectId(model, next))
  }

  /** The scene built from the given materials, the scene object taking UUID `gen(objectId)`. */
  function SceneFrom(materials: seq<Material>, model: Model, close: Closeness, gen: nat -> string, objectId: nat)
    : Result<Scene, SceneError>
  {
    match Collect(model, close, LookUp(materials), gen, objectId + 1)
    case Failure(e) => Failure(e)
    case Success(b) =>
      Success(Scene(b.geometries, materials, SceneObject(FormatUuid(gen(objectId)), "Scene", IdentityMatrix(), b.children)))
  }

  // ---------------------------------------------------------------------
  // Failures stop everything
  // ---------------------------------------------------------------------

  lemma {:induction false} FoldFailurePersists<T>(a: Assembly, xs: seq<T>, step: (Assembly, T) -> Result<Assembly, SceneError>, k: nat)
    requires k <= |xs| && Fold(a, xs[..k], step).Failure?
    ensures Fold(a, xs, step) == Fold(a, xs[..k], step)
    decreases |xs|
  {
    if k < |xs| {
      var front := xs[..|xs| - 1];
      assert front[..k] == xs[..k];
      FoldFailurePersists(a, front, step, k);
    } else {
      assert xs[..k] == xs;
    }
  }

  /** A step that fails after the first `k` elements succeeded makes the whole loop fail with its error. */
  lemma FoldFailsAt<T>(a: Assembly, xs: seq<T>, step: (Assembly, T) -> Result<Assembly, SceneError>, k: nat, b: Assembly)
    requires k < |xs| && Fold(a, xs[..k], step) == Success(b) && step(b, xs[k]).Failure?
    ensures Fold(a, xs, step) == step(b, xs[k])
  {
    assert xs[..k + 1][..k] == xs[..k];
    FoldFailurePersists(a, xs, step, k + 1);
  }

  // ---------------------------------------------------------------------
  // build_scene
  // ---------------------------------------------------------------------

  /**
   * The body of either object loop for one object: each geometry is
   * collected, takes the next UUID for its child, and gets the material
   * `pick` chooses; a nil material raises.
   */
  method AddChildrenLoop(a: Assembly, name: string, gs: GeometrySet, pick: Pick, gen: nat -> string,
                         ghost base: nat, nextId: nat)
    returns (r: Result<Assembly, SceneError>, nextId': nat)
    requires |gs.geometries| == |gs.userDatas| && nextId == base + |a.children|
    ensures r == AddChildren(a, name, gs, pick, gen, base, |gs.geometries|)
    ensures r.Success? ==> nextId' == base + |r.value.children|
  {
    var allGeometries, children := a.geometries, a.children;
    nextId' := nextId;
    for i := 0 to |gs.geometries|
      invariant AddChildren(a, name, gs, pick, gen, base, i) == Success(Assembly(allGeometries, children))
      invariant nextId' == base + |children|
    {
      var geometry, userData := gs.geometries[i], gs.userDatas[i];
      var material := pick(i, userData);
      allGeometries := allGeometries + [geometry];
      var uuid := FormatUuid(gen(nextId'));
      nextId' := nextId' + 1;
      if material.None? {
        ChildrenFailurePersists(a, name, gs, pick, gen, base, i + 1, |gs.geometries|);
        return Failure(MissingMaterial(name)), nextId';
      }
      children := children + [SceneChild(uuid, ChildName(name, i), "Mesh", geometry.uuid, material.value.uuid,
                                         IdentityMatrix(), userData)];
    }
    r := Success(Assembly(allGeometries, children));
  }

  /**
   * The surface loop: for each surface its material by type, its
   * geometries (a failed triangulation raises), then its children.
   */
  method SurfaceLoop(a: Assembly, surfaces: seq<Surface>, close: Closeness, l: Lookups, gen: nat -> string,
                     ghost base: nat, nextId: nat)
    returns (r: Result<Assembly, SceneError>, nextId': nat)
    requires nextId == base + |a.children|
    ensures r == Fold(a, surfaces, SurfaceStep(close, l, gen, base))
    ensures r.Success? ==> nextId' == base + |r.value.children|
  {
    ghost var step := SurfaceStep(close, l, gen, base);
    var current := a;
    nextId' := nextId;
    for k := 0 to |surfaces|
      invariant Fold(a, surfaces[..k], step) == Success(current)
      invariant nextId' == base + |current.children|
    {
      var surface := surfaces[k];
      assert surfaces[..k + 1][..k] == surfaces[..k];
      var out := MakeGeometries(surface, close);
      if out.None? {
        FoldFailsAt(a, surfaces, step, k, current);
        return Failure(TriangulationFailed(surface.name)), nextId';
      }
      var added;
      added, nextId' := AddChildrenLoop(current, surface.name, out.value, SurfacePick(surface, l), gen, base, nextId');
      if added.Failure? {
        FoldFailsAt(a, surfaces, step, k, current);
        return added, nextId';
      }
      current := added.value;
    }
    assert surfaces[..|surfaces|] == surfaces;
    r := Success(current);
  }

  /** The shading loop: for each shading surface its geometry (a failed triangulation raises), then its child. */
  method ShadeLoop(a: Assembly, shades: seq<ShadingSurface>, close: Closeness, l: Lookups, gen: nat -> string,
                   ghost base: nat, nextId: nat)
    returns (r: Result<Assembly, SceneError>, nextId': nat)
    requires nextId == base + |a.children|
    ensures r == Fold(a, shades, ShadeStep(close, l, gen, base))
    ensures r.Success? ==> nextId' == base + |r.value.children|
  {
    ghost var step := ShadeStep(close, l, gen, base);
    var current := a;
    nextId' := nextId;
    for k := 0 to |shades|
      invariant Fold(a, shades[..k], step) == Success(current)
      invariant nextId' == base + |current.children|
    {
      var surface := shades[k];
      assert shades[..k + 1][..k] == shades[..k];
      var out := MakeShadeGeometries(surface, close);
      if out.None? {
        FoldFailsAt(a, shades, step, k, current);
        return Failure(TriangulationFailed(surface.name)), nextId';
      }
      var added;
      added, nextId' := AddChildrenLoop(current, surface.name, out.value, ShadingPick(l), gen, base, nextId');
      if added.Failure? {
        FoldFailsAt(a, shades, step, k, current);
        return added, nextId';
      }
      current := added.value;
    }
    assert shades[..|shades|] == shades;
    r := Success(current);
  }

  /**
   * build_scene: the materials, the scene object's UUID, the material
   * lookups, the surface loop and the shading loop.
   */
  method BuildScene(model: Model, close: Closeness, gen: nat -> string, next: nat) returns (r: Result<Scene, SceneError>)
    ensures r == SceneOf(model, close, gen, next)
  {
    var materials, nextId := BuildMaterials(model.constructions, model.thermalZones, model.spaceTypes,
                                            model.buildingStories, model.defaultColor, gen, next);
    r := AssembleScene(materials, model, close, gen, nextId);
  }

  /**
   * The rest of build_scene once the materials exist: the scene object's
   * UUID, the material lookups, the surface loop and the shading loop.
   */
  method AssembleScene(materials: seq<Material>, model: Model, close: Closeness, gen: nat -> string, objectId: nat)
    returns (r: Result<Scene, SceneError>)
    ensures r == SceneFrom(materials, model, close, gen, objectId)
  {
    var objectUuid := FormatUuid(gen(objectId));
    var nextId := objectId + 1;
    var l := LookUp(materials);
    var surfaces;
    surfaces, nextId := SurfaceLoop(Assembly([], []), model.surfaces, close, l, gen, nextId, nextId);
    if surfaces.Failure? {
      return Failure(surfaces.error);
    }
    var all;
    all, nextId := ShadeLoop(surfaces.value, model.shadingSurfaces, close, l, gen, objectId + 1, nextId);
    if all.Failure? {
      return Failure(all.error);
    }
    var root := SceneObject(objectUuid, "Scene", IdentityMatrix(), all.value.children);
    r := Success(Scene(all.value.geometries, materials, root));
  }
}
