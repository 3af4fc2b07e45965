# VoxelRT core in Dafny

This project is a functional model of the core of VoxelRT, a CPU voxel ray tracer. The world is a cube of 128³ cells. Each cell holds a 16-bit material key, and key 0 means "empty". The model covers the following parts:

- **Grid** (`grid.dfy`): the size constants, the flat `x + y·N + z·N²` layout, and `SetMaterial`.
- **Traversal** (`traversal.dfy`): the Amanatides & Woo grid walk.
  - `Setup3DDDA`, and `FindNearest` in both of its modes: outside a solid and starting inside one.
  - `IsOccluded`.
  - Every walk is related to a reference sequence of visited cells (`Path`). The model proves which cell each walk reports and that each walk stops within `3·N` steps.
- **Materials** (`material.dfy`): the defaults and `GetMaterialByKey`.
- **Lights** (`light.dfy`, `lightlist.dfy`): the defaults, the factories and `GetLightVector`. It also models the `AddLight`/`RemoveLight` operations of both the scene and the light handler.
- **Shading** (`shading.dfy`): `Scene::ShadowRay` and the older `LightHandler::ShadowRay`, and how the two differ.
- **Scene store** (`scene.dfy`): the default level, adding and removing lights, `SaveLevelToFile` (as written, `SaveLevelAsWritten`, and with the light count clamped, `SaveLevelClamped`) and `LoadLevelFromFile`.
  - Save and load work on the `SceneData` record, so the model does not do file I/O.
  - It proves the save/load round trip, and that saving truncates materials above the material limit.
- **Renderer** (`renderer.dfy`): `Trace` and the sky color. It also models how the light editor keeps `selectedLightIndex` up to date when a row is selected or deleted, when the selected-light window is closed, and when a level is loaded.

Some parts are replaced by parameters:

- Floating point becomes `real`.
- Length, normalisation and the shadow-ray occlusion query are supplied by the caller as an `Optics` record.
- The slab test `intersect_cube` becomes a `Slab` record.
- The Perlin-noise level becomes a `solid` predicate over cells.
- The iteration order of the material map becomes an `order` sequence.
- The ray's `GetNormal`, `IntersectionPoint` and `GetAlbedo` are not part of this model. `Trace` takes them as a `surface` function from the hit ray to its normal, point and albedo, so any material lookup behind the albedo happens inside that function.

The DDA coordinates are unsigned 32-bit integers. The model writes their wrap-around out explicitly (`UintAdd`), so a step below 0 leaves the grid, just as in the source.

Two details follow the code exactly:

- The point and directional light terms use the raw `dot(N, -L)`, so a surface facing away from the light gets a negative term; nothing clamps it at zero.
- `SceneData` in scene.h lists no material fields, but scene.cpp reads and writes `keysForMaterials`, `materials` and `materialCount`. The model uses the fields that scene.cpp uses.

## Model

| member | source | states |
|---|---|---|
| Grid.SizesArePowersOfTwo | scene.h:6-12 | The world is 128 cells a side, 128² per slice and 128³ in total. |
| Grid.Index | scene.cpp:171-174 | The flat index of an in-bounds cell is below N³. |
| Grid.CellAt | scene.cpp:171-174 | Every flat index below N³ is the index of exactly one in-bounds cell. |
| Grid.CellAtIndex | scene.cpp:171-174 | Converting a cell to its flat index and back gives the same cell. |
| Grid.IndexInjective | scene.cpp:171-174 | Two distinct cells never share a slot, so a write to one cell cannot reach another. |
| Grid.SetMaterial | scene.cpp:171-174 | After the write, the cell holds the new key and every other cell keeps its old key. |
| Grid.SetMaterialFrame | scene.cpp:171-174 | At the level of the raw array, the update at one cell's slot leaves every other cell's slot alone. |
| Grid.GridOf | scene.cpp:42-55 | A grid filled cell by cell holds, at every cell, the key chosen for that cell. |
| Grid.EmptyGrid | scene.cpp:25-27 | A freshly allocated grid is empty at every slot. |
| Materials.NewMaterial | material.h:10-13 | The constructor stores exactly the albedo, metallic and roughness it is given. |
| Materials.DefaultMaterialValues | material.h:5-13 | The default is purple albedo (0.75, 0, 0.75) with metallic 0 and roughness 0. The roughness default of 0 differs from the member initialiser's 1. |
| Materials.GetMaterialByKey | scene.cpp:363-374 | Key 0 aborts. Otherwise the key is valid exactly when the map holds it, and the lookup returns the stored material or else the default material. |
| Materials.LookupAfterStore | scene.cpp:363-374 | A material stored under a nonzero key is found again, flagged valid. |
| Materials.LookupOtherKeyUnaffected | scene.cpp:363-374 | Storing under one key does not change the lookup of any other key. |
| Lights.DefaultLight | light.h:12-23 | The default light is of type Unknown and named "name", at the origin, pointing along +z, with range 1, magenta color, intensity 1, cone angles 0 and 1, and enabled. |
| Lights.CreatePoint | light.h:49-59 | A Point light with its descriptive name; every other field keeps its default. |
| Lights.CreateDirectional | light.h:60-71 | A Directional light with its descriptive name; every other field keeps its default. |
| Lights.CreateSpot | light.h:72-82 | A Spot light with its descriptive name; every other field keeps its default. |
| Lights.CreateArea | light.h:83-92 | An Area light with its descriptive name; every other field keeps its default. |
| Lights.CreatePointFrom | light.h:94-104 | Sets the type, position, range, color and intensity; every other field keeps its default. |
| Lights.CreateDirectionalFrom | light.h:106-115 | Sets the type, direction, color and intensity; every other field keeps its default. |
| Lights.CreateSpotFrom | light.h:117-130 | Sets the type and every spot parameter; the light keeps the placeholder name and stays enabled. |
| Lights.ParameterisedFactoriesKeepPlaceholderName | light.h:49-115 | Lights built from parameters keep the placeholder name "name", unlike the parameterless factories. |
| Lights.GetLightVector | light.h:25-47 | For Point and Spot lights, the vector leads from the light's position to the pixel. For Directional lights it is the light's direction. For Area and Unknown lights it is zero. |
| LightList.AddLight | lighthandler.cpp:66-71 | The light is appended at the end, the earlier lights are untouched, and the call reports success. |
| LightList.RemoveLight | lighthandler.cpp:80-85 | Erasing by index shifts the later lights down by one, keeps their order, and removes exactly one copy of the erased light. |
| LightList.RemoveLightAt | lighthandler.cpp:73-78 | Erasing at an iterator position removes exactly that element. |
| LightList.RemoveUndoesAdd | lighthandler.cpp:66-85 | Removing the light that was just appended restores the list. |
| LightList.RemovalOverloadsAgree | lighthandler.cpp:73-85 | The iterator overload and the index overload of RemoveLight produce the same list. |
| Traversal.StepBelowZeroLeavesGrid | scene.cpp:222-228 | A coordinate of 0 stepped by -1 wraps to 2³²-1, which fails the `>= GRIDSIZE` exit test. |
| Traversal.BudgetBounds | scene.cpp:215-250 | The walks' termination measure (the moves left before leaving the grid, summed over the three axes) is between 3 and 3·N. |
| Traversal.SelectAxis | scene.cpp:220-228 | The axis choice follows the source's nested comparisons: x if tmax.x is strictly below both others, else y if tmax.y < tmax.z, else z. |
| Traversal.SelectAxisIsArgmin | scene.cpp:220-228 | The chosen axis has the smallest tmax. Ties go to z first, then y. |
| Traversal.Advance | scene.cpp:220-228 | One step: t becomes tmax on the chosen axis and that coordinate moves one cell. The walk exits exactly when the coordinate leaves the grid. Otherwise tmax advances by tdelta on that axis and the remaining room shrinks by one. |
| Traversal.Path | scene.cpp:215-250 | The cells a walk visits, in order. Each is in the grid and follows from the one before by one step; the step after the last cell leaves the grid. There are at most Budget-2 cells. |
| Traversal.WalkOutside | scene.cpp:236-250 | The outside-mode loop stops within the budget. It reports the empty key or a key that some cell of the grid holds. |
| Traversal.WalkInside | scene.cpp:215-230 | The inside-mode loop stops within the budget. Its key is empty only when it starts on an empty cell with nothing carried over. |
| Traversal.WalkOccluded | scene.cpp:266-280 | The occlusion loop stops within the budget. It reports occlusion only if the walk started before the ray's end. |
| Traversal.WalksEndWithinThreeN | scene.cpp:215-280 | Every walk runs fewer than 3·N iterations. |
| Traversal.OutsideReportExtend | scene.cpp:236-250 | Putting an empty cell in front of a walk keeps the outside-mode report and adds one iteration. |
| Traversal.InsideReportExtend | scene.cpp:215-230 | Putting an occupied cell in front of a walk keeps the inside-mode report and adds one iteration. |
| Traversal.WalkOutsideFindsFirstOccupied | scene.cpp:236-254 | Outside mode reports the first occupied cell on the path, with the t and axis at which it was entered. If there is none, it reports the empty key with the exit t and axis. |
| Traversal.WalkInsideReportsLastOccupied | scene.cpp:215-231 | Inside mode reports the last cell of the leading occupied run, with the t and axis of the step out of that run. |
| Traversal.WalkOccludedIsBlocked | scene.cpp:266-281 | The loop reports occlusion exactly when an occupied cell is reached with every cell up to it entered before the ray's end. |
| Traversal.PointInCubeIsClosedUnitCube | scene.cpp:16-21 | The cube test uses inclusive bounds: a point is inside exactly when every coordinate lies in [0, 1], so the corners and faces count as inside. |
| Traversal.IntersectCube | scene.cpp:3-14 | The slab test changes only the ray's axis. A Y or Z entry plane writes its axis, and an X entry plane leaves the axis as it was. |
| Traversal.Clamp | scene.cpp:192 | The clamp result lies in [0, N-1] and leaves in-range values unchanged. |
| Traversal.Setup3DDDA | scene.cpp:177-201 | The setup misses exactly when the origin is outside the cube and the slab test misses. The step is 1 - 2·Dsign, and t is 0 inside the cube or the entry distance outside it. The ray counts as inside exactly when it starts in the cube on an occupied cell. The start cell is in the grid. |
| Traversal.FindNearest | scene.cpp:203-255 | The origin is nudged by ε along D. A miss leaves the key and t as they were. A hit that starts inside a solid never reports the empty key. |
| Traversal.IsOccluded | scene.cpp:257-282 | The shadow ray is nudged and shortened by 2ε. It is occluded exactly when its path is blocked before its end; a ray that misses the cube is never occluded. |
| Traversal.FindNearestOutsideMode | scene.cpp:233-254 | The key is empty exactly when every cell on the path is empty. Otherwise it is the first occupied cell's key, reported with the t at which that cell was entered. |
| Traversal.WalkInsideEndsOccupiedRun | scene.cpp:212-231 | Starting on an occupied cell, inside mode reports the key of the last cell in the occupied run. |
| Traversal.FindNearestInsideMode | scene.cpp:212-231 | A ray starting inside a solid reports the last voxel of the leading occupied run, never the empty key. |
| Shading.ShadowRay | scene.cpp:285-347 | A disabled light gives black. A Spot light aborts, and so do Area and Unknown lights. A point light beyond its range gives black without a shadow ray. Otherwise the shadow query is cast. Light arrives only when the query is not occluded, and then it is the color times the falloff (point lights only), the intensity and dot(N, -L). |
| Shading.HandlerShadowRay | lighthandler.cpp:6-64 | The handler variant gives black for disabled, spot and unknown lights. It casts the same shadow queries. An occluded query gives black, and an unoccluded one gives the same light term as the scene variant. |
| Shading.ShadowQueryFollowsLightVector | scene.cpp:291-319 | The shadow query of a point light runs from the light toward the pixel, along its light vector. A directional light's query runs from the pixel against the light's direction. |
| Shading.ShadowRayVariantsAgree | lighthandler.cpp:6-50 | Where the scene variant does not abort and the light is not out of range, both variants give the same shade. |
| Shading.HandlerIgnoresRange | lighthandler.cpp:12-31 | For an unoccluded point light beyond its range, the scene variant gives black. The handler variant still lights the pixel, with a negative falloff factor. |
| Shading.HandlerDarkWhereSceneRefuses | lighthandler.cpp:54-62 | Where the scene variant aborts, the handler variant gives black. |
| SceneStore.LoadDefaultLevel | scene.cpp:32-56 | Key 1 is set to the grey level material. Each cell holds key 1 if the noise marks it solid and is empty otherwise. The lights and other materials are kept. |
| SceneStore.NewScene | scene.cpp:23-30 | A new scene has no lights and only the level material. A cell is occupied exactly when it is solid. |
| SceneStore.AddLight | scene.cpp:349-354 | The light is appended and the rest of the scene is unchanged. |
| SceneStore.RemoveLight | scene.cpp:356-361 | The light at the index is erased and the rest of the scene is unchanged. |
| SceneStore.BlankData | scene.cpp:64 | A zero-initialised record is well formed and holds no lights and no materials. |
| SceneStore.Pack | scene.cpp:121-155 | The record copies the grid, the first lightCount lights, and up to the material limit of materials in iteration order. |
| SceneStore.SaveLevelAsWritten | scene.cpp:111-169 | As written: an unopenable file fails, and more than MAXLIGHTS lights overruns the light slots. Otherwise the record is well formed and holds the grid verbatim, every light in order with the full count, and the materials up to the limit. These are the first keys in iteration order, distinct, each with its own material. |
| SceneStore.SaveAsWrittenOverrunsLightSlots | scene.cpp:134-139 | A scene with 33 lights makes the as-written save overrun the 32 light slots, while the corrected save succeeds. |
| SceneStore.SaveLevelClamped | scene.cpp:111-169 | Corrected save. It fails only when the file cannot be opened. Otherwise it writes the grid, at most MAXLIGHTS lights, and at most the material limit of materials. These are the first keys in iteration order, distinct, each with its own material. |
| SceneStore.SaveAsWrittenLoadRoundTrip | scene.cpp:58-169 | The save as written also round-trips through a load when the lights and materials fit. |
| SceneStore.SaveVariantsAgreeWhenLightsFit | scene.cpp:134-139 | With at most MAXLIGHTS lights, the as-written and corrected saves agree. |
| SceneStore.BuildMaterials | scene.cpp:79-83 | The rebuilt map's keys are exactly the recorded keys. A repeated key takes the last material recorded for it. |
| SceneStore.LoadLevelFromFile | scene.cpp:58-109 | An unopenable file loads the default level and reports failure. Otherwise the grid and the recorded lights replace the scene's own. The material table is rebuilt from the recorded slots: its keys are exactly the recorded keys, and a repeated key takes the material of its last slot. |
| SceneStore.RebuildFromEnumeration | scene.cpp:79-83 | Loading a complete enumeration of a map rebuilds exactly that map. |
| SceneStore.SaveLoadRoundTrip | scene.cpp:58-169 | When the lights and materials fit, loading a saved scene restores its grid, lights and materials. |
| SceneStore.SaveLoadTruncatesMaterials | scene.cpp:141-155 | With more materials than the limit, a save and load keeps exactly the first keys in iteration order, each with its original material. |
| SceneStore.FailedLoadServesLevelMaterial | scene.cpp:71-77 | After a failed load, key 1 is found with the level material, and the grid is the noise level: key 1 on solid cells, empty elsewhere. |
| Renderer.GetSkyColor | renderer.cpp:30-33 | The sky color is the same constant for every ray. |
| Renderer.LightSum | renderer.cpp:20-27 | The sum over the lights fails exactly when some enabled light would make the shading abort. |
| Renderer.LightSumAppend | renderer.cpp:20-27 | The sum over two concatenated lists is the sum of the two sums. |
| Renderer.LightSumOrderIrrelevant | renderer.cpp:20-27 | Swapping two blocks of the light list does not change a successful sum. |
| Renderer.LightSumSkipsDisabled | renderer.cpp:20-27 | A disabled light adds nothing. |
| Renderer.Trace | renderer.cpp:6-28 | A ray that finds no voxel, or finds one behind its origin, sees the sky. Any other ray gets the sum of albedo times shadow over the scene's lights. With no lights the result is sky or black. |
| Renderer.TraceMissIsSky | renderer.cpp:8-11 | A fresh ray that misses the world cube sees the sky. |
| Renderer.SelectRow | renderer.cpp:126-129 | Selecting a row selects that light, so the selection is valid. |
| Renderer.AdjustSelection | renderer.cpp:136-137 | Deleting the selected row clears the selection. A selection above the deleted row moves down by one, and one below stays. |
| Renderer.DeleteRow | renderer.cpp:132-138 | Deleting a row removes that light from the scene and adjusts the selection. |
| Renderer.DeleteKeepsSelectedLight | renderer.cpp:132-138 | After a deletion, a valid selection stays valid and still designates the same light, unless that light was the one deleted. |
| Renderer.SelectedLightWindow | renderer.cpp:151-203 | The window throws exactly when the selection is neither -1 nor a valid index. Closing it clears the selection. |
| Renderer.WindowKeepsSelectionValid | renderer.cpp:151-203 | With a valid selection the window never throws, and it leaves the selection valid. |
| Renderer.LoadLevelButton | renderer.cpp:101-102 | As written: the scene is reloaded and the selection is kept unchanged. |
| Renderer.LoadStrandsSelection | renderer.cpp:101-102 | Selecting the only light and then loading a level with no lights leaves an out-of-range selection, and the window then throws. |
| Renderer.LoadLevelButtonClearing | renderer.cpp:101-102 | Corrected load button: the selection becomes -1 when it no longer designates a light of the loaded scene, and is kept otherwise, so it is always valid. |
| Renderer.ClearingLoadKeepsWindowSafe | renderer.cpp:151-154 | After the corrected load, the selected-light window never throws. |

## Left out

- Floating point rounding: all arithmetic is on `real`. The slab test, `normalize`, `length` and the occlusion query are parameters (`Slab`, `Optics`), so no lemma depends on float values of `posInGrid`, `tmax` or `tdelta`.
- Shading.Ratio: a zero range is modelled as a falloff of 0 instead of the float division's infinity or NaN.
- File I/O: `fopen`, `fread` and `fwrite` are represented by an optional `SceneData` record and a `fileOpens` flag.
- SceneStore.LoadLevelFromFile: requires the record to be well formed (counts within their arrays). A truncated or foreign file, read as raw bytes into the record, is not modelled.
- SceneStore.SaveLevelAsWritten and SceneStore.SaveLevelClamped: the iteration order of `std::map` is the parameter `order` (any enumeration of the keys), and MAXMATERIALS is the parameter `maxMaterials`. Their definitions are not part of this model.
- The declaration of `defaultMaterial` is not part of this model. It is a field of the scene record, and `NewScene` assumes it holds a default-constructed `Material`.
- `noise3D` is not part of this model: the default level's solid cells are the parameter `solid`.
- OpenMP parallel loops are modelled as their sequential result; every iteration writes a distinct cell.
- Traversal.IsOccluded: `s.t` is assigned after the bounds check, the reverse of FindNearest. This cannot be observed, because the function returns on that path.
- Traversal walks carry an `iterations` count that the source does not keep; it exists only to state the step bound.
- Camera, window handling, `Tick`, frame timing and accumulation are not part of the core.
- The light-editor widgets that edit a light's name, color, position, direction, cone angles, intensity and range are user input; only the selection bookkeeping is modelled.
- `abort()` in `GetMaterialByKey` and `ShadowRay` is modelled as an error result.

## Findings

| source | as written | input that shows it | evidently intended | confidence | as-written member | corrected member |
|---|---|---|---|---|---|---|
| scene.cpp:134-139 | `lightCount` is the full light count, and that many lights are copied into an array of MAXLIGHTS slots | a scene with 33 lights, saved | clamp the count to MAXLIGHTS, as the material count is clamped to its limit | high, not executed | SceneStore.SaveAsWrittenOverrunsLightSlots | SceneStore.SaveLevelClamped |
| renderer.cpp:101-102 | loading a level keeps `selectedLightIndex`, and the selected-light window reads it with `lights.at` | select the only light, then load a level with no lights | clear the selection when it no longer designates a light, as deletion does | medium, not executed | Renderer.LoadStrandsSelection | Renderer.LoadLevelButtonClearing |
