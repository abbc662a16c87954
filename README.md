# VA3C scene export, modelled in Dafny

`ViewModel/resources/va3c.rb` turns an OpenStudio building model into a
vA3C / three.js JSON scene. It has four parts:

- a fixed catalog of 36 Phong materials;
- one triangulated mesh `Geometry` per surface, per sub-surface and per
  shading surface, with its vertices de-duplicated by a distance tolerance;
- one `UserData` record of metadata per geometry;
- a root scene object whose children name each mesh, its geometry, its
  material and its metadata.

This project models that pipeline and proves what it promises.

Modules, one file each:

- `Wrappers` (`wrappers.dfy`): `Option` and `Result`.
- `Numerals` (`numerals.dfy`): digit strings in base 10 and 16. These stand in
  for Ruby's `Integer#to_s(base)`, and `Value` reads a digit string back.
- `Formats` (`formats.dfy`): `format_uuid`, `format_color`, the `String#hex`
  reading that `make_material` applies to a formatted color, and
  `identity_matrix`.
- `Vertices` (`vertices.dfy`):
  - `get_vertex_index` is the module-level method `GetVertexIndex`. It takes a
    `VertexList` object and updates its points in place, because the Ruby
    method appends to the caller's array.
  - `flatten_vertices` is a loop.
  - The face-index loop of the geometry builders is `IndexFaces`, specified by
    the function `IndexTriangles`.
- `Materials` (`materials.dfy`): `make_material` and `build_materials`, with the
  36 catalog swatches written out. It also models `Array#find` by name.
- `Meshes` (`meshes.dfy`): `make_geometries` and `make_shade_geometries`.
- `Scenes` (`scenes.dfy`): `build_scene`. It is a method with loops that is
  proved equal to the function `SceneOf`. Material choice, child naming and
  the two ways the Ruby code crashes are written out here.
- `SceneProperties` (`scene_properties.dfy`): when a scene is built, and which
  material every kind of surface receives.
- `SceneLayout` (`scene_layout.dfy`): the shape of a built scene. This covers
  counts, the alignment of every child with its geometry and its UUID, and
  the exact children each surface and shading surface adds.

Modelling choices:

- **Points.** A point is three `real`s.
- **Closeness.** "closer than the tolerance" (`getDistance(a, b) < 0.001`) is a
  parameter `close`.
- **Triangulation.** The triangulation a surface would get, already
  transformed to site coordinates, is a field `triangles` of the surface.
- **UUIDs.** `OpenStudio::createUUID` is a generator `gen: nat -> string` plus
  a running counter. Each call consumes the next number, so the model records
  exactly which UUID each material, the root object and each child take.
- **Crashes.** Two conditions end `build_scene` with a Ruby exception. The
  model returns a `Failure` for each:
  - a failed triangulation makes `make_geometries` return `[]`, and the
    destructuring then yields `nil` (`TriangulationFailed`);
  - a surface type without a material dereferences `nil` (`MissingMaterial`).

## Model

| member | source | states |
|---|---|---|
| Numerals.DigitsRoundTrip | ViewModel/resources/va3c.rb:51-53 | reading back the digits `to_s(base)` writes gives the number again |
| Numerals.DigitsAreDigits | ViewModel/resources/va3c.rb:51-53 | `to_s(base)` writes only digits of that base |
| Numerals.DigitsNoLeadingZero | ViewModel/resources/va3c.rb:51-53 | the written digits start with '0' only for zero |
| Numerals.DigitsInjective | ViewModel/resources/va3c.rb:51-53 | different numbers are written differently |
| Numerals.DigitsLength | ViewModel/resources/va3c.rb:51-53 | a channel takes one hex digit exactly when it is below 16, and two when it is in 16..255 |
| Numerals.ValueAppend | ViewModel/resources/va3c.rb:66-67 | reading a concatenation shifts the first part by the length of the second |
| Formats.FormatUuid | ViewModel/resources/va3c.rb:46-48 | the result has no '{' or '}' and is no longer than the input |
| Formats.FormatUuidKeepsOthers | ViewModel/resources/va3c.rb:46-48 | every character other than a brace is present after formatting exactly when it was before |
| Formats.FormatUuidAppend | ViewModel/resources/va3c.rb:46-48 | formatting works piece by piece over a concatenation |
| Formats.FormatUuidKeepsPlainText | ViewModel/resources/va3c.rb:46-48 | text without braces is returned unchanged |
| Formats.FormatUuidOfBraced | ViewModel/resources/va3c.rb:46-48 | a braced UUID `{...}` loses exactly its two braces |
| Formats.FormatUuidIdempotent | ViewModel/resources/va3c.rb:46-48 | formatting an already formatted UUID changes nothing |
| Formats.FormatColor | ViewModel/resources/va3c.rb:51-53 | "0x" and the unpadded hex digits of red, green and blue; specified by `Formats.ColorValueOfDigits`, `Formats.ColorValueShifts` and the two padding lemmas |
| Formats.HexValue | ViewModel/resources/va3c.rb:66-67 | `String#hex`: an optional "0x" prefix, then the longest run of hex digits; specified by `Formats.LeadingDigits` and `Formats.HexValueOfPrefixed` |
| Formats.LeadingDigits | ViewModel/resources/va3c.rb:66-67 | `String#hex` reads the longest prefix of hex digits, and stops at the first character that is not one |
| Formats.HexValueOfPrefixed | ViewModel/resources/va3c.rb:66-67 | `String#hex` of "0x" followed by hex digits is their value |
| Formats.ColorValueOfDigits | ViewModel/resources/va3c.rb:51-53 | the stored color is the value of the three unpadded channel strings written one after the other |
| Formats.ColorValueShifts | ViewModel/resources/va3c.rb:51-53 | red is shifted by as many hex digits as green and blue take, and green by as many as blue takes |
| Formats.ColorValueOfTwoDigitChannels | ViewModel/resources/va3c.rb:51-53 | when green and blue are in 16..255 the stored color is the 24-bit RGB value |
| Formats.ColorValueDropsGreenPadding | ViewModel/resources/va3c.rb:111 | (0, 153, 0) is written "0x0990" and stored as 0x990, not 0x009900 |
| Formats.ColorValueDropsRedPadding | ViewModel/resources/va3c.rb:113 | (255, 0, 0) is written "0xff00" and stored as 0xff00, not 0xff0000 |
| Formats.IdentityMatrix | ViewModel/resources/va3c.rb:533-535 | sixteen entries, with 1 on the diagonal of the 4x4 matrix and 0 elsewhere |
| Vertices.FirstClose | ViewModel/resources/va3c.rb:187-191 | the search finds the first stored point close to the vertex, or reports that none is close |
| Vertices.VertexIndex | ViewModel/resources/va3c.rb:186-194 | the index names a stored point that is equal or close to the vertex, and no earlier stored point is close. The list grows by the vertex alone, exactly when no stored point was close. Points pairwise apart stay pairwise apart |
| Vertices.VertexIndexIdempotent | ViewModel/resources/va3c.rb:186-194 | looking up the same vertex again returns the same index and leaves the list unchanged |
| Vertices.VertexList.constructor | ViewModel/resources/va3c.rb:244 | a new vertex list is empty |
| Vertices.GetVertexIndex | ViewModel/resources/va3c.rb:186-194 | the method updates the caller's list in place and returns the index, both as `VertexIndex` specifies |
| Vertices.FlattenAt | ViewModel/resources/va3c.rb:197-209 | point i becomes entries 3i..3i+2 as (x, z, -y) |
| Vertices.UnflattenFlatten | ViewModel/resources/va3c.rb:197-209 | the flattening loses nothing: reading the triples back gives the points |
| Vertices.FlattenUnflatten | ViewModel/resources/va3c.rb:197-209 | every list whose length is a multiple of 3 is the flattening of exactly one point list |
| Vertices.FlattenVertices | ViewModel/resources/va3c.rb:197-209 | the loop computes the flattening |
| Vertices.AddVerticesExtends | ViewModel/resources/va3c.rb:254-256 | indexing a triangle's corners appends one face index per corner, each naming a point that represents that corner, and keeps earlier entries |
| Vertices.AddVerticesPoints | ViewModel/resources/va3c.rb:254-256 | the point list only grows, stays pairwise apart and gains only corners |
| Vertices.IndexTrianglesPoints | ViewModel/resources/va3c.rb:244-260 | a mesh's points are pairwise apart and are all corners of its triangles |
| Vertices.IndexTrianglesMarkers | ViewModel/resources/va3c.rb:244-260 | faces hold four entries per triangle, and each group starts with the triangle marker 0 |
| Vertices.AddTriangleFaces | ViewModel/resources/va3c.rb:246-256 | one more triangle keeps every face entry naming a point that represents its corner |
| Vertices.IndexTrianglesFaces | ViewModel/resources/va3c.rb:244-260 | face entry 4a+1+b names a point that represents corner b of triangle a |
| Vertices.IndexFaces | ViewModel/resources/va3c.rb:244-260 | the face loop computes `IndexTriangles` |
| Materials.BlackLiteral | ViewModel/resources/va3c.rb:68 | the emissive literal reads as 0 |
| Materials.GreyLiteral | ViewModel/resources/va3c.rb:69 | the specular literal reads as 0x808080 |
| Materials.MakeMaterial | ViewModel/resources/va3c.rb:56-76 | make_material; every field it stores is stated by `Materials.MakeMaterialOfColor` |
| Materials.MakeMaterialOfColor | ViewModel/resources/va3c.rb:56-76 | for every color, a material stores the `String#hex` reading of the formatted color as both color and ambient; that reading is the 24-bit RGB value when green and blue take two hex digits. It is transparent exactly when opacity < 1. It keeps the name and opacity, has type MeshPhongMaterial, shininess 50, side 2, no wireframe, and a braceless UUID |
| Materials.PaletteAt | ViewModel/resources/va3c.rb:83-128 | palette entry i is made from swatch i with the i-th UUID drawn |
| Materials.EntityMaterial | ViewModel/resources/va3c.rb:131-180 | the material each of the four entity loops builds; stated by `Materials.EntityMaterialFields` |
| Materials.EntityMaterialFields | ViewModel/resources/va3c.rb:131-180 | an entity material is named `<Category>_<name>`, takes the entity's rendering color or else the default color, and is transparent exactly when alpha < 255 |
| Materials.EntityMaterials | ViewModel/resources/va3c.rb:131-180 | the loop builds one material per entity and draws one UUID per entity |
| Materials.PaletteMaterials | ViewModel/resources/va3c.rb:83-128 | the catalog is built in order, drawing 36 UUIDs |
| Materials.BuildMaterials | ViewModel/resources/va3c.rb:79-183 | the result is the 36-entry catalog alone. The per-entity materials are dropped, but each still consumes a UUID |
| Materials.Find | ViewModel/resources/va3c.rb:547-555 | a found material has the name and is in the list, and nothing is found exactly when no material has the name |
| Materials.FindFirst | ViewModel/resources/va3c.rb:547-555 | the first material with the name is the one found |
| Materials.TranslucentSwatches | ViewModel/resources/va3c.rb:92-93 | only Window and Window_Int have opacity below 1 (0.6) |
| Materials.CatalogEntry | ViewModel/resources/va3c.rb:83-128 | catalog entry i has swatch i's name, color text and opacity, and the i-th UUID |
| Materials.CatalogShape | ViewModel/resources/va3c.rb:79-183 | 36 entries with their names and UUIDs in order, transparent exactly at Window and Window_Int |
| Materials.LeadingSwatchNames | ViewModel/resources/va3c.rb:83-108 | the nine names `build_scene` looks up sit at positions 0, 2, …, 16 |
| Materials.LeadingSwatchNamesDistinct | ViewModel/resources/va3c.rb:83-108 | the first 17 names are pairwise different |
| Materials.CatalogFind | ViewModel/resources/va3c.rb:547-555 | looking up a name that first appears at position i gives catalog entry i |
| Materials.CatalogLookups | ViewModel/resources/va3c.rb:547-555 | all nine lookups in `build_scene` succeed, at entries 0, 2, …, 16 |
| Materials.BoundarySurfaceLine | ViewModel/resources/va3c.rb:111 | swatch 18 is Boundary_Surface (0, 153, 0), opaque |
| Materials.CatalogBoundarySurfaceColor | ViewModel/resources/va3c.rb:111 | the Boundary_Surface material stores color and ambient 0x990 |
| Materials.CatalogTwoDigitColors | ViewModel/resources/va3c.rb:83-128 | a catalog entry whose green and blue take two hex digits stores its exact RGB value |
| Meshes.MakeMeshGeometry | ViewModel/resources/va3c.rb:244-277 | the builder computes `MeshGeometry` |
| Meshes.MeshGeometryDecodes | ViewModel/resources/va3c.rb:244-277 | the stored buffer decodes into points that are pairwise apart. Faces are groups of four (marker 0, then three indices), each index naming a point that represents the triangle's corner |
| Meshes.NamesOf | ViewModel/resources/va3c.rb:297-316 | without a space all four names are nil; with one, the space name is its name |
| Meshes.SurfaceUserData | ViewModel/resources/va3c.rb:279-327 | the surface's user data; every field is stated by `Meshes.SurfaceUserDataFields` |
| Meshes.SubSurfaceUserData | ViewModel/resources/va3c.rb:371-402 | a sub-surface's user data; stated by `Meshes.SubSurfacesInherit` |
| Meshes.SubGeometriesAt | ViewModel/resources/va3c.rb:330-369 | sub-surface k gets its own mesh geometry, keyed by its handle |
| Meshes.SubUserDatasAt | ViewModel/resources/va3c.rb:371-402 | sub-surface k gets its own user data record |
| Meshes.MakeGeometries | ViewModel/resources/va3c.rb:212-406 | the method computes `SurfaceGeometries` |
| Meshes.SurfaceGeometriesShape | ViewModel/resources/va3c.rb:238-405 | the result is empty exactly when the surface does not triangulate. Otherwise it has one geometry and one user data for the surface, then one of each per sub-surface in order, with names and types |
| Meshes.SurfaceGeometriesHandles | ViewModel/resources/va3c.rb:274-372 | every geometry's UUID equals the handle in the user data beside it |
| Meshes.SurfaceUserDataFields | ViewModel/resources/va3c.rb:279-327 | the surface's record carries its handle, boundary condition and adjacent surface, exposures, construction, space / zone / space type / story names (all nil without a space) and vertices |
| Meshes.SubSurfaceRecord | ViewModel/resources/va3c.rb:327-402 | the surface's own record comes first, and the record at position k + 1 is that of sub-surface k |
| Meshes.SubSurfacesInherit | ViewModel/resources/va3c.rb:371-402 | a sub-surface's record copies the parent's boundary condition, exposures and four space names, and also the PARENT's vertices. It keeps its own handle, construction and adjacent sub-surface |
| Meshes.ShadeUserData | ViewModel/resources/va3c.rb:499-528 | a shading surface's user data; every field is stated by `Meshes.ShadeGeometriesShape` |
| Meshes.MakeShadeGeometries | ViewModel/resources/va3c.rb:409-531 | the method computes `ShadeGeometries` |
| Meshes.ShadeGeometriesShape | ViewModel/resources/va3c.rb:419-528 | the result is empty exactly when the shading surface does not triangulate. Otherwise it has one geometry and record. The type is the group's type (or "Building") + "Shading", the boundary fields are nil, the exposures are SunExposed / WindExposed, and the space, thermal zone, space type and building story names come from the group's space (all nil without one) |
| Scenes.Upcase | ViewModel/resources/va3c.rb:562 | `String#upcase` on ASCII; specified by `Scenes.UpcaseProperties` |
| Scenes.UpcaseProperties | ViewModel/resources/va3c.rb:562 | upcasing keeps the length, turns each lower-case ASCII letter into its capital, keeps every other character, leaves no lower-case letter, and is idempotent |
| Scenes.SurfaceMaterial | ViewModel/resources/va3c.rb:561-569 | the surface's own material by upcased type; specified by `SceneProperties.SurfaceMaterialFound` and `SceneProperties.SurfaceMaterialExamples` |
| Scenes.SubSurfaceMaterial | ViewModel/resources/va3c.rb:589-593 | Window when the type mentions Window or Glass, else Door; specified by `SceneProperties.SubSurfaceMaterialFound` and the window / door examples |
| Scenes.ShadingMaterial | ViewModel/resources/va3c.rb:611-618 | by the first of Site, Building, Space the type mentions, else nil; specified by `SceneProperties.ShadingMaterialFound` and the shading examples |
| Scenes.ChildName | ViewModel/resources/va3c.rb:580 | "<name> <i>"; specified by `Scenes.ChildNameReadsBack` |
| Scenes.ChildNameReadsBack | ViewModel/resources/va3c.rb:580 | a child's name is the object's name, a space, then decimal digits that read back as the child's position |
| Scenes.ChildNamesDistinct | ViewModel/resources/va3c.rb:580 | two children of one object never share a name |
| Scenes.OccursShift | ViewModel/resources/va3c.rb:589 | dropping the first character of the text moves each occurrence of the pattern one place to the left |
| Scenes.MatchesIff | ViewModel/resources/va3c.rb:589 | a regex of plain letters matches exactly when the pattern occurs somewhere in the text |
| Scenes.NoMatch | ViewModel/resources/va3c.rb:589 | a pattern containing a character the text lacks does not match |
| Scenes.MatchAt | ViewModel/resources/va3c.rb:589 | an occurrence anywhere is a match |
| Scenes.CatalogLookUp | ViewModel/resources/va3c.rb:547-554 | the eight material lookups on the catalog give entries 0, 2, …, 14 |
| Scenes.NewChildrenAt | ViewModel/resources/va3c.rb:572-599 | child i has the i-th UUID, is named "<name> <i>", has type Mesh, points at geometry i and the picked material, has the identity matrix and carries user data i |
| Scenes.AddChildrenResult | ViewModel/resources/va3c.rb:572-599 | adding a geometry set succeeds exactly when every child gets a material, and it then appends the geometries and the children |
| Scenes.AddChildrenSucceeds | ViewModel/resources/va3c.rb:584-594 | success exactly when every child gets a material |
| Scenes.AddChildrenValue | ViewModel/resources/va3c.rb:572-599 | on success the geometries and the children are appended in order |
| Scenes.ChildrenFailurePersists | ViewModel/resources/va3c.rb:586 | once a material is missing, the later children change nothing |
| Scenes.FoldFailurePersists | ViewModel/resources/va3c.rb:559-633 | once a surface fails, the later surfaces change nothing |
| Scenes.FoldFailsAt | ViewModel/resources/va3c.rb:559-633 | the first failing surface decides the result |
| Scenes.AddChildrenLoop | ViewModel/resources/va3c.rb:572-599 | the child loop computes `AddChildren` and advances the UUID counter by one per child |
| Scenes.SurfaceLoop | ViewModel/resources/va3c.rb:559-601 | the surface loop computes the fold of `AddSurface` and keeps the UUID counter in step |
| Scenes.ShadeLoop | ViewModel/resources/va3c.rb:604-633 | the shading loop computes the fold of `AddShade` and keeps the UUID counter in step |
| Scenes.BuildScene | ViewModel/resources/va3c.rb:537-648 | the method computes `SceneOf` |
| Scenes.AssembleScene | ViewModel/resources/va3c.rb:541-648 | everything after build_materials computes `SceneFrom` of the materials built, for any material list |
| SceneProperties.CatalogFindsAll | ViewModel/resources/va3c.rb:547-554 | every material `build_scene` looks up is present in the catalog |
| SceneProperties.SurfaceMaterialFound | ViewModel/resources/va3c.rb:561-569 | a surface gets a material exactly when its upcased type is FLOOR, WALL or ROOFCEILING |
| SceneProperties.SubSurfaceMaterialFound | ViewModel/resources/va3c.rb:589-593 | every sub-surface gets a material |
| SceneProperties.ShadingMaterialFound | ViewModel/resources/va3c.rb:611-618 | a shading surface gets a material exactly when its type contains Site, Building or Space |
| SceneProperties.UpcaseExamples | ViewModel/resources/va3c.rb:562 | the spellings Floor, Wall, RoofCeiling and roofceiling upcase to FLOOR, WALL, ROOFCEILING and ROOFCEILING |
| SceneProperties.SurfaceMaterialExamples | ViewModel/resources/va3c.rb:561-569 | the spellings Floor, Wall, RoofCeiling and roofceiling take the floor, wall, roof and roof lookups |
| SceneProperties.SurfaceMaterialIgnoresCase | ViewModel/resources/va3c.rb:561-569 | letter case does not matter: any surface type chooses the same material as its upcased spelling |
| SceneProperties.WindowsTakeWindowMaterial | ViewModel/resources/va3c.rb:589-590 | FixedWindow and OperableWindow take the Window material |
| SceneProperties.GlassDoorTakesWindowMaterial | ViewModel/resources/va3c.rb:589-590 | GlassDoor takes the Window material |
| SceneProperties.DoorsTakeDoorMaterial | ViewModel/resources/va3c.rb:589-593 | Door and OverheadDoor take the Door material |
| SceneProperties.SkylightTakesDoorMaterial | ViewModel/resources/va3c.rb:589-593 | Skylight contains neither Window nor Glass, so it takes the Door material |
| SceneProperties.SiteShadingMaterial | ViewModel/resources/va3c.rb:612-613 | SiteShading takes the SiteShading material |
| SceneProperties.BuildingShadingMaterial | ViewModel/resources/va3c.rb:612-615 | BuildingShading takes the BuildingShading material |
| SceneProperties.SpaceShadingMaterial | ViewModel/resources/va3c.rb:612-617 | SpaceShading takes the SpaceShading material |
| SceneProperties.SurfacePicked | ViewModel/resources/va3c.rb:584-594 | every child of a surface gets a material exactly when the surface's own type has one |
| SceneProperties.AddSurfaceSucceeds | ViewModel/resources/va3c.rb:559-601 | a surface adds its children exactly when it triangulates and its type has a material |
| SceneProperties.AddShadeSucceeds | ViewModel/resources/va3c.rb:604-633 | a shading surface adds its child exactly when it triangulates and its type has a material |
| SceneProperties.FoldSucceeds | ViewModel/resources/va3c.rb:559-633 | a loop over surfaces succeeds exactly when every surface does |
| SceneProperties.FoldFirstFailure | ViewModel/resources/va3c.rb:559-633 | the result of a failing loop is the failure of the first failing surface |
| SceneProperties.AddChildrenError | ViewModel/resources/va3c.rb:586 | a failure while adding children names the surface as missing a material |
| SceneProperties.AddSurfaceError | ViewModel/resources/va3c.rb:571-586 | a failing surface reports a failed triangulation if it has no triangles, else a missing material |
| SceneProperties.AddShadeError | ViewModel/resources/va3c.rb:606-627 | the same for a shading surface |
| SceneProperties.CatalogSurfaceOk | ViewModel/resources/va3c.rb:561-593 | with the catalog, a surface is accepted exactly when it triangulates and has a known type |
| SceneProperties.CatalogShadeOk | ViewModel/resources/va3c.rb:611-618 | with the catalog, a shading surface is accepted exactly when it triangulates and has a known type |
| SceneProperties.CollectSucceeds | ViewModel/resources/va3c.rb:557-633 | both loops succeed exactly when every surface and every shading surface is accepted |
| SceneProperties.CollectFailsAtSurface | ViewModel/resources/va3c.rb:559-601 | the first rejected surface decides the error |
| SceneProperties.CollectFailsAtShade | ViewModel/resources/va3c.rb:604-633 | if all surfaces pass, the first rejected shading surface decides the error |
| SceneProperties.CatalogAllOk | ViewModel/resources/va3c.rb:547-633 | with the catalog, every object is accepted exactly when every object is renderable |
| SceneProperties.SceneFromSucceeds | ViewModel/resources/va3c.rb:537-648 | a scene is built from a material list exactly when both loops accept every object |
| SceneProperties.SceneSucceeds | ViewModel/resources/va3c.rb:537-648 | `build_scene` returns a scene exactly when every surface and every shading surface triangulates and has a known type |
| SceneProperties.SceneFailsAtSurface | ViewModel/resources/va3c.rb:559-601 | otherwise the first unrenderable surface names the error |
| SceneProperties.SceneFailsAtShade | ViewModel/resources/va3c.rb:604-633 | or, when all surfaces render, the first unrenderable shading surface does |
| SceneLayout.AddChildrenAligned | ViewModel/resources/va3c.rb:572-599 | adding children keeps every child paired with its geometry's UUID, its handle and the UUID drawn for it |
| SceneLayout.AddSurfaceAligned | ViewModel/resources/va3c.rb:571-599 | the same for a whole surface |
| SceneLayout.AddShadeAligned | ViewModel/resources/va3c.rb:606-631 | the same for a shading surface |
| SceneLayout.FoldPreserves | ViewModel/resources/va3c.rb:559-633 | a property each step keeps holds after the loop |
| SceneLayout.CollectAligned | ViewModel/resources/va3c.rb:557-633 | after both loops, geometries and children correspond one to one, and child j has the j-th UUID drawn |
| SceneLayout.FoldCounts | ViewModel/resources/va3c.rb:559-633 | a loop adds the sum of what each step adds |
| SceneLayout.AddSurfaceCount | ViewModel/resources/va3c.rb:571-599 | a surface adds 1 + (number of sub-surfaces) children |
| SceneLayout.AddShadeCount | ViewModel/resources/va3c.rb:606-631 | a shading surface adds one child |
| SceneLayout.CollectCount | ViewModel/resources/va3c.rb:557-633 | the child count is the sum over surfaces of 1 + sub-surfaces, plus one per shading surface |
| SceneLayout.LookUpIn | ViewModel/resources/va3c.rb:547-554 | every lookup by name that finds something finds a material of the searched list |
| SceneLayout.SurfacePickIn | ViewModel/resources/va3c.rb:561-593 | the surface loop only picks looked-up materials, for the surface and for its sub-surfaces |
| SceneLayout.ShadingPickIn | ViewModel/resources/va3c.rb:611-618 | the shading loop only picks looked-up materials |
| SceneLayout.AddChildrenReferences | ViewModel/resources/va3c.rb:572-599 | the inner loop adds only children whose material is the UUID of a material in the list |
| SceneLayout.AddSurfaceReferences | ViewModel/resources/va3c.rb:571-599 | the same for a whole surface |
| SceneLayout.AddShadeReferences | ViewModel/resources/va3c.rb:606-631 | the same for a shading surface |
| SceneLayout.CollectReferences | ViewModel/resources/va3c.rb:557-633 | after both loops every child shows a material of the list the lookups searched |
| SceneLayout.SceneFromShape | ViewModel/resources/va3c.rb:537-648 | a built scene keeps the material list. Its root has the root UUID, type Scene and the identity matrix, the children are aligned and counted as above, and every child's material is the UUID of a material in the scene's list |
| SceneLayout.SceneShape | ViewModel/resources/va3c.rb:537-648 | the same for `build_scene`. Its materials are the catalog, its root UUID is the first one drawn after all the materials, and every child's material UUID is that of a catalog material in the scene |
| SceneLayout.SurfaceAppends | ViewModel/resources/va3c.rb:572-599 | an accepted surface appends its own children after the existing ones |
| SceneLayout.SurfaceOwnChild | ViewModel/resources/va3c.rb:578-586 | the surface's child "<name> 0" uses the surface material chosen by type, the surface's geometry and its user data |
| SceneLayout.SubSurfaceChild | ViewModel/resources/va3c.rb:578-597 | the child for sub-surface k is "<name> <k+1>" and uses the Window / Door material chosen from the sub-surface type, its geometry and its inherited user data |
| SceneLayout.SubSurfaceEntry | ViewModel/resources/va3c.rb:365-402 | geometry and user data k+1 of a surface belong to sub-surface k |
| SceneLayout.SurfaceChildren | ViewModel/resources/va3c.rb:572-599 | the surface's children follow the existing ones unchanged, one per geometry |
| SceneLayout.ShadeChild | ViewModel/resources/va3c.rb:606-631 | a shading surface appends exactly its geometry and one child "<name> 0" with the material chosen from its type |

## Left out

- The geometric kernel is not modelled: `planarSurfaceGroup.siteTransformation`, `alignFace`, `reverse`, the
  transform products and `computeTriangulation`. A surface carries the triangles it would get, in site coordinates.
- `OpenStudio::getDistance(a, b) < tol` is the parameter `close`. The default tolerance 0.001 is its
  caller's business.
- Coordinates are `real`s and alpha / 255 is an exact `real`, so floating-point rounding is not modelled.
- `setRenderingColor` (lines 135, 148, 161, 174) is not modelled. It attaches a fresh color to a model
  object as a side effect on the input model, and nothing in the returned scene depends on it. The source
  creates a new `RenderingColor` for each uncoloured entity (lines 134, 147, 160, 174). The model stands for
  all of these fresh colors with the one parameter `defaultColor`, so every uncoloured entity gets the same
  color. The returned scene does not show this, because those materials are never pushed.
- `OpenStudio::createUUID` is the generator `gen` plus a counter. Its randomness and the uniqueness of its
  results are not modelled.
- The `puts` messages on a failed triangulation (lines 240, 460) are not modelled.
- The JSON wrapping in `convert_model` (lines 32-43) is not part of this model.
- The `Struct#to_h` shim (lines 3-11) is not part of this model. The structs are datatypes.
- The commented-out ambient light (lines 635-640) is not part of this model.
- The lookup of `InteriorPartitionSurface` (line 555) is never used. `Materials.CatalogLookups` shows that it
  succeeds, and nothing more is modelled.
- `Scenes.Upcase` maps ASCII letters only, and Ruby's full Unicode case mapping is not modelled.
  Every type compared against an upcased constant is ASCII.
- `Formats.HexValue` covers the texts `format_color` produces and the two literals. Ruby's `String#hex`
  also accepts a sign and underscores, and that is not modelled.
- `Scenes.Matches` models the regexes `/Window/`, `/Glass/`, `/Site/`, `/Building/` and `/Space/` as
  literal substring tests. These are all the regexes the modelled code uses.
- A crash is a `Failure` value. The partial state before it is not kept, such as geometries already
  appended to `all_geometries`.
- A sub-surface whose own triangulation is empty is not checked by the code (lines 334-369). It yields a
  geometry with empty buffers, and the model follows the code. Skipping it would be the more natural
  design.
