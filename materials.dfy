/**
 * The material side of the converter: make_material, the fixed palette that
 * build_materials returns, the per-entity materials it also builds (and
 * drops), and the `materials.find` lookup by name that build_scene uses.
 */
module Materials {
  import opened Wrappers
  import opened Numerals
  import opened Formats

  /**
   * A material record as make_material builds it; `kind` is its JSON key
   * "type". The record keeps the color text it was given: the JSON "color"
   * and "ambient" are both that text read with String#hex (Color below).
   */
  datatype Material = Material(
    uuid: string,
    name: string,
    kind: string,
    colorText: string,
    emissive: nat,
    specular: nat,
    shininess: nat,
    opacity: real,
    transparent: bool,
    wireframe: bool,
    side: nat)
  {
    function Color(): nat
    {
      HexValue(colorText)
    }

    function Ambient(): nat
    {
      HexValue(colorText)
    }
  }

  lemma ZeroRun()
    ensures IsDigits("000000", 16) && Value("000000", 16) == 0
  {
    assert "000000"[..5] == "00000";
    assert "00000"[..4] == "0000";
    assert "0000"[..3] == "000";
    assert "000"[..2] == "00";
    assert "00"[..1] == "0";
    assert "0"[..0] == "";
  }

  /** String#hex reads "0x000000" as 0. */
  lemma BlackLiteral()
    ensures HexValue("0x000000") == 0
  {
    ZeroRun();
    HexValueOfPrefixed("000000");
  }

  lemma GreyDigits()
    ensures FormatColor(128, 128, 128) == "0x808080"
  {
    assert Digits(128, 16) == "80" by {
      assert 128 / 16 == 8 && 128 % 16 == 0;
      assert Digits(8, 16) == "8";
    }
  }

  /** String#hex reads "0x808080" as 0x808080. */
  lemma GreyLiteral()
    ensures HexValue("0x808080") == 0x808080
  {
    GreyDigits();
    ColorValueOfTwoDigitChannels(128, 128, 128);
  }

  /**
   * make_material: a Phong material in the given color, transparent exactly
   * when the opacity is below 1, with a fresh formatted UUID; emissive and
   * specular are the readings of "0x000000" and "0x808080".
   */
  function MakeMaterial(name: string, color: string, opacity: real, uuid: string): Material
  {
    Material(FormatUuid(uuid), name, "MeshPhongMaterial", color, 0, 0x808080, 50, opacity, opacity < 1.0, false, 2)
  }

  /**
   * What make_material stores for a formatted color: the reading of the
   * color text as color and ambient (the 24-bit value when green and blue
   * take two hex digits each), the fixed emissive and specular readings,
   * shininess 50, side 2, no wireframe, transparency below opacity 1 and a
   * UUID without braces.
   */
  lemma MakeMaterialOfColor(name: string, r: nat, g: nat, b: nat, opacity: real, uuid: string)
    ensures var m := MakeMaterial(name, FormatColor(r, g, b), opacity, uuid);
            && m.Color() == m.Ambient() == ColorValue(r, g, b)
            && (16 <= g < 256 && 16 <= b < 256 ==> m.Color() == r * 65536 + g * 256 + b)
            && m.emissive == HexValue("0x000000") && m.specular == HexValue("0x808080")
            && (m.transparent <==> opacity < 1.0)
            && m.name == name && m.opacity == opacity && m.kind == "MeshPhongMaterial"
            && m.shininess == 50 && m.side == 2 && !m.wireframe
            && m.uuid == FormatUuid(uuid) && '{' !in m.uuid && '}' !in m.uuid
  {
    BlackLiteral();
    GreyLiteral();
    if 16 <= g < 256 && 16 <= b < 256 {
      ColorValueOfTwoDigitChannels(r, g, b);
    }
  }

  /** One line of the fixed palette: a name, its RGB channels and its opacity. */
  datatype Swatch = Swatch(name: string, red: nat, green: nat, blue: nat, opacity: real)

  /** The fixed palette of build_materials, in the order the materials are pushed. */
  const Swatches: seq<Swatch> := [
    Swatch("Floor", 128, 128, 128, 1.0),
    Swatch("Floor_Int", 191, 191, 191, 1.0),
    Swatch("Wall", 204, 178, 102, 1.0),
    Swatch("Wall_Int", 235, 226, 197, 1.0),
    Swatch("Roof", 153, 76, 76, 1.0),
    Swatch("Roof_Int", 202, 149, 149, 1.0),
    Swatch("Window", 102, 178, 204, 0.6),
    Swatch("Window_Int", 192, 226, 235, 0.6),
    Swatch("Door", 153, 133, 76, 1.0),
    Swatch("Door_Int", 202, 188, 149, 1.0),
    Swatch("SiteShading", 75, 124, 149, 1.0),
    Swatch("SiteShading_Int", 187, 209, 220, 1.0),
    Swatch("BuildingShading", 113, 76, 153, 1.0),
    Swatch("BuildingShading_Int", 216, 203, 229, 1.0),
    Swatch("SpaceShading", 76, 110, 178, 1.0),
    Swatch("SpaceShading_Int", 183, 197, 224, 1.0),
    Swatch("InteriorPartitionSurface", 158, 188, 143, 1.0),
    Swatch("InteriorPartitionSurface_Int", 213, 226, 207, 1.0),
    Swatch("Boundary_Surface", 0, 153, 0, 1.0),
    Swatch("Boundary_Adiabatic", 255, 101, 178, 1.0),
    Swatch("Boundary_Space", 255, 0, 0, 1.0),
    Swatch("Boundary_Outdoors", 163, 204, 204, 1.0),
    Swatch("Boundary_Outdoors_Sun", 40, 204, 204, 1.0),
    Swatch("Boundary_Outdoors_Wind", 9, 159, 162, 1.0),
    Swatch("Boundary_Outdoors_SunWind", 68, 119, 161, 1.0),
    Swatch("Boundary_Ground", 204, 183, 122, 1.0),
    Swatch("Boundary_Groundfcfactormethod", 153, 122, 30, 1.0),
    Swatch("Boundary_Groundslabpreprocessoraverage", 255, 191, 0, 1.0),
    Swatch("Boundary_Groundslabpreprocessorcore", 255, 182, 50, 1.0),
    Swatch("Boundary_Groundslabpreprocessorperimeter", 255, 178, 101, 1.0),
    Swatch("Boundary_Groundbasementpreprocessoraveragewall", 204, 51, 0, 1.0),
    Swatch("Boundary_Groundbasementpreprocessoraveragefloor", 204, 81, 40, 1.0),
    Swatch("Boundary_Groundbasementpreprocessorupperwall", 204, 112, 81, 1.0),
    Swatch("Boundary_Groundbasementpreprocessorlowerwall", 204, 173, 163, 1.0),
    Swatch("Boundary_Othersidecoefficients", 63, 63, 63, 1.0),
    Swatch("Boundary_Othersideconditionsmodel", 153, 0, 76, 1.0)
  ]

  /** The material one palette line becomes, with the UUID it is given. */
  function SwatchMaterial(s: Swatch, uuid: string): Material
  {
    MakeMaterial(s.name, FormatColor(s.red, s.green, s.blue), s.opacity, uuid)
  }

  /** The materials of the first `n` palette lines, the first of them taking UUID `gen(next)`. */
  function Palette(lines: seq<Swatch>, make: (Swatch, string) -> Material, gen: nat -> string, next: nat, n: nat): (c: seq<Material>)
    requires n <= |lines|
    ensures |c| == n
  {
    if n == 0 then [] else Palette(lines, make, gen, next, n - 1) + [make(lines[n - 1], gen(next + n - 1))]
  }

  /** The list build_materials returns when its first UUID is `gen(next)`. */
  function Catalog(gen: nat -> string, next: nat): seq<Material>
  {
    Palette(Swatches, SwatchMaterial, gen, next, |Swatches|)
  }

  /** Palette position `i` holds line `i`, made with the `i`-th UUID. */
  lemma {:induction false} PaletteAt(lines: seq<Swatch>, make: (Swatch, string) -> Material, gen: nat -> string,
                                     next: nat, n: nat, i: nat)
    requires i < n <= |lines|
    ensures Palette(lines, make, gen, next, n)[i] == make(lines[i], gen(next + i))
    decreases n
  {
    if i < n - 1 {
      PaletteAt(lines, make, gen, next, n - 1, i);
    }
  }

  /** A model library color: three channels and an alpha, each 0 to 255. */
  datatype RenderingColor = RenderingColor(red: nat, green: nat, blue: nat, alpha: nat)

  /** A construction, thermal zone, space type or building story: its name and its color, if set. */
  datatype Rendered = Rendered(name: string, renderingColor: Option<RenderingColor>)

  /**
   * The material build_materials makes for one model entity: named
   * "<category>_<name>", in the entity's color (or the library's default
   * color when none is set), with opacity alpha / 255.
   */
  function EntityMaterial(category: string, e: Rendered, defaultColor: RenderingColor, uuid: string): Material
  {
    var c := if e.renderingColor.Some? then e.renderingColor.value else defaultColor;
    MakeMaterial(category + "_" + e.name, FormatColor(c.red, c.green, c.blue), c.alpha as real / 255.0, uuid)
  }

  /**
   * The entity material is named after its category and entity, takes the
   * entity's color or else the default one, and is transparent exactly when
   * that color's alpha is below 255.
   */
  lemma EntityMaterialFields(category: string, e: Rendered, defaultColor: RenderingColor, uuid: string)
    ensures var m := EntityMaterial(category, e, defaultColor, uuid);
            var c := if e.renderingColor.Some? then e.renderingColor.value else defaultColor;
            && m.name == category + "_" + e.name
            && m.colorText == FormatColor(c.red, c.green, c.blue)
            && (m.transparent <==> c.alpha < 255)
  {
  }

  /**
   * One of the four entity loops of build_materials: a material per entity,
   * in order, each taking the next UUID.
   */
  method EntityMaterials(category: string, entities: seq<Rendered>, defaultColor: RenderingColor,
                         gen: nat -> string, next: nat)
    returns (built: seq<Material>, nextId: nat)
    ensures nextId == next + |entities|
    ensures |built| == |entities|
    ensures forall i :: 0 <= i < |entities| ==>
              built[i] == EntityMaterial(category, entities[i], defaultColor, gen(next + i))
  {
    built := [];
    nextId := next;
    for i := 0 to |entities|
      invariant nextId == next + i && |built| == i
      invariant forall j :: 0 <= j < i ==> built[j] == EntityMaterial(category, entities[j], defaultColor, gen(next + j))
    {
      built := built + [EntityMaterial(category, entities[i], defaultColor, gen(nextId))];
      nextId := nextId + 1;
    }
  }

  /** The first part of build_materials: the palette materials, pushed in order. */
  method PaletteMaterials(gen: nat -> string, next: nat) returns (materials: seq<Material>, nextId: nat)
    ensures materials == Catalog(gen, next)
    ensures nextId == next + |Swatches|
  {
    materials := [];
    nextId := next;
    for i := 0 to |Swatches|
      invariant nextId == next + i
      invariant materials == Palette(Swatches, SwatchMaterial, gen, next, i)
    {
      materials := materials + [SwatchMaterial(Swatches[i], gen(nextId))];
      nextId := nextId + 1;
    }
  }

  /**
   * build_materials: the fixed palette, then one material per construction,
   * thermal zone, space type and building story. Only the palette is
   * returned; the entity materials are built and dropped, but each still
   * takes a UUID, so `nextId` is the first UUID left unused.
   */
  method BuildMaterials(constructions: seq<Rendered>, thermalZones: seq<Rendered>,
                        spaceTypes: seq<Rendered>, buildingStories: seq<Rendered>,
                        defaultColor: RenderingColor, gen: nat -> string, next: nat)
    returns (materials: seq<Material>, nextId: nat)
    ensures materials == Catalog(gen, next)
    ensures nextId == next + |Swatches| + |constructions| + |thermalZones| + |spaceTypes| + |buildingStories|
  {
    materials, nextId := PaletteMaterials(gen, next);
    var dropped;
    dropped, nextId := EntityMaterials("Construction", constructions, defaultColor, gen, nextId);
    dropped, nextId := EntityMaterials("ThermalZone", thermalZones, defaultColor, gen, nextId);
    dropped, nextId := EntityMaterials("SpaceType", spaceTypes, defaultColor, gen, nextId);
    dropped, nextId := EntityMaterials("BuildingStory", buildingStories, defaultColor, gen, nextId);
  }

  /** `materials.find { |m| m[:name] == name }`: the first material of that name, or nil. */
  function Find(materials: seq<Material>, name: string): (r: Option<Material>)
    ensures r.Some? ==> r.value.name == name && r.value in materials
    ensures r.None? <==> forall i :: 0 <= i < |materials| ==> materials[i].name != name
    decreases |materials|
  {
    if materials == [] then None
    else if materials[0].name == name then Some(materials[0])
    else Find(materials[1..], name)
  }

  /** The lookup returns the first material carrying the name. */
  lemma {:induction false} FindFirst(materials: seq<Material>, name: string, i: nat)
    requires i < |materials| && materials[i].name == name
    requires forall j :: 0 <= j < i ==> materials[j].name != name
    ensures Find(materials, name) == Some(materials[i])
    decreases i
  {
    if i > 0 {
      assert materials[0].name != name;
      FindFirst(materials[1..], name, i - 1);
    }
  }

  /** Only the two window lines of the palette are translucent, at opacity 0.6. */
  lemma TranslucentSwatches()
    ensures forall i :: 0 <= i < |Swatches| ==> (Swatches[i].opacity < 1.0 <==> i == 6 || i == 7)
    ensures Swatches[6].name == "Window" && Swatches[7].name == "Window_Int"
    ensures Swatches[6].opacity == Swatches[7].opacity == 0.6
  {
  }

  /** Catalog entry `i` carries palette line `i`'s name and opacity and the `i`-th UUID, formatted. */
  lemma CatalogEntry(gen: nat -> string, next: nat, i: nat)
    requires i < |Swatches|
    ensures var m := Catalog(gen, next)[i];
            && m.name == Swatches[i].name
            && m.uuid == FormatUuid(gen(next + i))
            && m.colorText == FormatColor(Swatches[i].red, Swatches[i].green, Swatches[i].blue)
            && m.opacity == Swatches[i].opacity
            && (m.transparent <==> Swatches[i].opacity < 1.0)
  {
    PaletteAt(Swatches, SwatchMaterial, gen, next, |Swatches|, i);
  }

  /**
   * The returned list is exactly the 36 palette materials in source order,
   * and only Window and Window_Int (opacity 0.6) are transparent.
   */
  lemma CatalogShape(gen: nat -> string, next: nat)
    ensures var c := Catalog(gen, next);
            && |c| == 36
            && (forall i :: 0 <= i < 36 ==> c[i].name == Swatches[i].name && c[i].uuid == FormatUuid(gen(next + i)))
            && (forall i :: 0 <= i < 36 ==> (c[i].transparent <==> i == 6 || i == 7))
            && c[6].name == "Window" && c[7].name == "Window_Int"
            && c[6].opacity == c[7].opacity == 0.6
  {
    TranslucentSwatches();
    forall i | 0 <= i < 36
      ensures var c := Catalog(gen, next);
              c[i].name == Swatches[i].name && c[i].uuid == FormatUuid(gen(next + i))
              && (c[i].transparent <==> i == 6 || i == 7)
    {
      CatalogEntry(gen, next, i);
    }
    CatalogEntry(gen, next, 6);
    CatalogEntry(gen, next, 7);
  }

  /** The names of the first sixteen palette lines, the ones build_scene looks up among. */
  lemma LeadingSwatchNames()
    ensures Swatches[0].name == "Floor" && Swatches[2].name == "Wall" && Swatches[4].name == "Roof"
    ensures Swatches[6].name == "Window" && Swatches[8].name == "Door"
    ensures Swatches[10].name == "SiteShading" && Swatches[12].name == "BuildingShading"
    ensures Swatches[14].name == "SpaceShading" && Swatches[16].name == "InteriorPartitionSurface"
  {
    SurfaceSwatchNames();
    ShadingSwatchNames();
  }

  lemma SurfaceSwatchNames()
    ensures Swatches[0].name == "Floor" && Swatches[2].name == "Wall" && Swatches[4].name == "Roof"
    ensures Swatches[6].name == "Window" && Swatches[8].name == "Door"
  {
  }

  lemma ShadingSwatchNames()
    ensures Swatches[10].name == "SiteShading" && Swatches[12].name == "BuildingShading"
    ensures Swatches[14].name == "SpaceShading" && Swatches[16].name == "InteriorPartitionSurface"
  {
  }

  /** The first seventeen palette names are pairwise different. */
  lemma LeadingSwatchNamesDistinct()
    ensures forall i, j :: 0 <= i < j < 17 ==> Swatches[i].name != Swatches[j].name
  {
  }

  /** Find on the catalog returns the entry at the first palette line of that name. */
  lemma CatalogFind(gen: nat -> string, next: nat, i: nat)
    requires i < |Swatches|
    requires forall j :: 0 <= j < i ==> Swatches[j].name != Swatches[i].name
    ensures Find(Catalog(gen, next), Swatches[i].name) == Some(Catalog(gen, next)[i])
  {
    var c := Catalog(gen, next);
    forall j | 0 <= j <= i
      ensures c[j].name == Swatches[j].name
    {
      CatalogEntry(gen, next, j);
    }
    FindFirst(c, Swatches[i].name, i);
  }

  /** The names build_scene looks up are found at their palette positions. */
  lemma CatalogLookups(gen: nat -> string, next: nat)
    ensures var c := Catalog(gen, next);
            && Find(c, "Floor") == Some(c[0])
            && Find(c, "Wall") == Some(c[2])
            && Find(c, "Roof") == Some(c[4])
            && Find(c, "Window") == Some(c[6])
            && Find(c, "Door") == Some(c[8])
            && Find(c, "SiteShading") == Some(c[10])
            && Find(c, "BuildingShading") == Some(c[12])
            && Find(c, "SpaceShading") == Some(c[14])
            && Find(c, "InteriorPartitionSurface") == Some(c[16])
  {
    LeadingSwatchNames();
    LeadingSwatchNamesDistinct();
    CatalogFind(gen, next, 0);
    CatalogFind(gen, next, 2);
    CatalogFind(gen, next, 4);
    CatalogFind(gen, next, 6);
    CatalogFind(gen, next, 8);
    CatalogFind(gen, next, 10);
    CatalogFind(gen, next, 12);
    CatalogFind(gen, next, 14);
    CatalogFind(gen, next, 16);
  }

  lemma BoundarySurfaceLine()
    ensures Swatches[18] == Swatch("Boundary_Surface", 0, 153, 0, 1.0)
  {
  }

  /**
   * Because format_color does not pad, the Boundary_Surface material, green
   * (0, 153, 0), is stored with color 0x990 rather than 0x009900.
   */
  lemma CatalogBoundarySurfaceColor(gen: nat -> string, next: nat)
    ensures var c := Catalog(gen, next);
            c[18].name == "Boundary_Surface" && c[18].Color() == c[18].Ambient() == 0x990
  {
    CatalogEntry(gen, next, 18);
    BoundarySurfaceLine();
    ColorValueDropsGreenPadding();
  }

  /** Every palette color whose green and blue need two hex digits is stored as 0xRRGGBB. */
  lemma CatalogTwoDigitColors(gen: nat -> string, next: nat, i: nat)
    requires i < |Swatches|
    requires 16 <= Swatches[i].green < 256 && 16 <= Swatches[i].blue < 256
    ensures var s := Swatches[i];
            Catalog(gen, next)[i].Color() == s.red * 65536 + s.green * 256 + s.blue
  {
    var s := Swatches[i];
    CatalogEntry(gen, next, i);
    ColorValueOfTwoDigitChannels(s.red, s.green, s.blue);
  }
}
