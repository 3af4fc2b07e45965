/**
 * The live scene (grid, lights, materials), the procedural default level,
 * and the snapshot record that saving and loading exchange with a file.
 * File access is reduced to whether the file opens and, for loading, the
 * record read from it.
 */
module SceneStore {
  import opened Vectors
  import opened Results
  import opened Grid
  import opened Materials
  import opened Lights
  import LightList

  /**
   * The scene state: the voxel grid, the ordered light list, the material
   * table, and the material handed out for unregistered keys.
   */
  datatype Scene = Scene(grid: seq<Key>, lights: seq<Light>, materials: map<Key, Material>, defaultMaterial: Material)

  predicate ValidScene(scene: Scene) {
    ValidGrid(scene.grid)
  }

  /** The key and material `LoadDefaultLevel` registers for its solid cells. */
  const DEFAULT_LEVEL_KEY: Key := 1
  const DEFAULT_LEVEL_MATERIAL: Material := NewMaterial(Vec3(0.9, 0.9, 0.9), 0.0, 1.0)

  /**
   * `Scene::LoadDefaultLevel`: registers the level material under key 1 and
   * overwrites every cell with key 1 where the noise field is above its
   * threshold (`solid`) and with the empty key elsewhere. Lights and the
   * other materials are kept.
   */
  function LoadDefaultLevel(scene: Scene, solid: Cell -> bool): (r: Scene)
    ensures ValidScene(r)
    ensures forall c :: InBounds(c) ==> KeyAt(r.grid, c) == (if solid(c) then DEFAULT_LEVEL_KEY else NOMATERIALKEY)
    ensures r.materials.Keys == scene.materials.Keys + {DEFAULT_LEVEL_KEY}
    ensures r.materials[DEFAULT_LEVEL_KEY] == DEFAULT_LEVEL_MATERIAL
    ensures forall k :: k in scene.materials && k != DEFAULT_LEVEL_KEY ==> r.materials[k] == scene.materials[k]
    ensures r.lights == scene.lights && r.defaultMaterial == scene.defaultMaterial
  {
    var grid := GridOf(c => if solid(c) then DEFAULT_LEVEL_KEY else NOMATERIALKEY);
    scene.(materials := scene.materials[DEFAULT_LEVEL_KEY := DEFAULT_LEVEL_MATERIAL], grid := grid)
  }

  /**
   * `Scene::Scene`: an empty grid, no lights and no materials, then the
   * default level.
   */
  function NewScene(solid: Cell -> bool): (r: Scene)
    ensures ValidScene(r)
    ensures r.lights == []
    ensures r.materials == map[DEFAULT_LEVEL_KEY := DEFAULT_LEVEL_MATERIAL]
    ensures r.defaultMaterial == NewMaterial()
    ensures forall c :: InBounds(c) ==> (KeyAt(r.grid, c) != NOMATERIALKEY <==> solid(c))
  {
    LoadDefaultLevel(Scene(EmptyGrid(), [], map[], NewMaterial()), solid)
  }

  /** The result of an edit of the light list and the boolean it returns. */
  datatype SceneEdit = SceneEdit(scene: Scene, ok: bool)

  /** `Scene::AddLight`: appends to the light list; grid and materials untouched. */
  function AddLight(scene: Scene, light: Light): (r: SceneEdit)
    ensures r.ok
    ensures r.scene.lights == scene.lights + [light]
    ensures r.scene.grid == scene.grid && r.scene.materials == scene.materials
    ensures r.scene.defaultMaterial == scene.defaultMaterial
  {
    var e := LightList.AddLight(scene.lights, light);
    assert e.lights == scene.lights + [light];
    SceneEdit(scene.(lights := e.lights), e.ok)
  }

  /** `Scene::RemoveLight`: erases position `id`; grid and materials untouched. */
  function RemoveLight(scene: Scene, id: int): (r: SceneEdit)
    requires 0 <= id < |scene.lights|
    ensures r.ok
    ensures r.scene.lights == scene.lights[..id] + scene.lights[id + 1..]
    ensures r.scene.grid == scene.grid && r.scene.materials == scene.materials
    ensures r.scene.defaultMaterial == scene.defaultMaterial
  {
    var e := LightList.RemoveLight(scene.lights, id);
    assert e.lights == scene.lights[..id] + scene.lights[id + 1..];
    SceneEdit(scene.(lights := e.lights), e.ok)
  }

  /**
   * `Scene::SceneData`: the grid, `MAXLIGHTS` light slots with a count, and
   * `maxMaterials` (key, material) slots with a count.
   */
  datatype SceneData = SceneData(
    grid: seq<Key>,
    lights: seq<Light>,
    lightCount: nat,
    keysForMaterials: seq<Key>,
    materials: seq<Material>,
    materialCount: nat)

  /** The record has its fixed shape and its counts fit its slots. */
  predicate WellFormedData(d: SceneData, maxMaterials: nat) {
    && ValidGrid(d.grid)
    && |d.lights| == MAXLIGHTS && d.lightCount <= MAXLIGHTS
    && |d.keysForMaterials| == maxMaterials && |d.materials| == maxMaterials
    && d.materialCount <= maxMaterials
  }

  /** The record as `new SceneData()` leaves it: every slot default-initialised. */
  function BlankData(maxMaterials: nat): (d: SceneData)
    ensures WellFormedData(d, maxMaterials)
    ensures d.lightCount == 0 && d.materialCount == 0
  {
    SceneData(EmptyGrid(), seq(MAXLIGHTS, _ => DefaultLight()), 0,
              seq(maxMaterials, _ => NOMATERIALKEY), seq(maxMaterials, _ => NewMaterial()), 0)
  }

  /**
   * `order` lists every key of the material table exactly once: the order
   * in which iterating the table visits them.
   */
  predicate IsEnumeration(order: seq<Key>, materials: map<Key, Material>) {
    && |order| == |materials|
    && (forall i, j :: 0 <= i < j < |order| ==> order[i] != order[j])
    && (forall k :: k in materials ==> k in order)
    && (forall i :: 0 <= i < |order| ==> order[i] in materials)
  }

  function Min(a: nat, b: nat): nat {
    if a <= b then a else b
  }

  /**
   * The record holds the first `min(|materials|, maxMaterials)` materials:
   * distinct keys of the table, each with the table's material.
   */
  predicate HoldsMaterials(d: SceneData, scene: Scene, maxMaterials: nat)
    requires |d.keysForMaterials| >= d.materialCount && |d.materials| >= d.materialCount
  {
    && d.materialCount == Min(|scene.materials|, maxMaterials)
    && (forall i :: 0 <= i < d.materialCount ==>
          d.keysForMaterials[i] in scene.materials && d.materials[i] == scene.materials[d.keysForMaterials[i]])
    && (forall i, j :: 0 <= i < j < d.materialCount ==> d.keysForMaterials[i] != d.keysForMaterials[j])
  }

  /**
   * Fills a blank record from the scene: the grid verbatim, the first
   * `lightCount` lights, and the first `min(|materials|, maxMaterials)`
   * materials in iteration order.
   */
  function Pack(scene: Scene, order: seq<Key>, maxMaterials: nat, lightCount: nat): (d: SceneData)
    requires ValidScene(scene) && IsEnumeration(order, scene.materials)
    requires lightCount <= MAXLIGHTS && lightCount <= |scene.lights|
    ensures WellFormedData(d, maxMaterials)
    ensures d.grid == scene.grid
    ensures d.lightCount == lightCount && d.lights[..lightCount] == scene.lights[..lightCount]
    ensures d.materialCount == Min(|scene.materials|, maxMaterials)
    ensures d.keysForMaterials[..d.materialCount] == order[..d.materialCount]
    ensures HoldsMaterials(d, scene, maxMaterials)
  {
    var blank := BlankData(maxMaterials);
    var count := Min(|scene.materials|, maxMaterials);
    var keys := order[..count] + blank.keysForMaterials[count..];
    var mats := seq(count, i requires 0 <= i < count => scene.materials[order[i]]) + blank.materials[count..];
    assert forall i :: 0 <= i < count ==> keys[i] == order[i];
    SceneData(scene.grid, scene.lights[..lightCount] + blank.lights[lightCount..], lightCount, keys, mats, count)
  }

  /** What a save does: write a record, fail to open the file, or overrun the light slots. */
  datatype SaveOutcome = Written(data: SceneData) | OpenFailed | SlotOverrun

  /**
   * `Scene::SaveLevelToFile` as written: the light count is the length of
   * the light list with no `MAXLIGHTS` bound, so a list longer than the
   * slots makes the copy loop write past them (`SlotOverrun`). Materials are
   * cut to `maxMaterials`.
   */
  function SaveLevelAsWritten(scene: Scene, order: seq<Key>, maxMaterials: nat, fileOpens: bool): (r: SaveOutcome)
    requires ValidScene(scene) && IsEnumeration(order, scene.materials)
    ensures r == OpenFailed <==> !fileOpens
    ensures r == SlotOverrun <==> fileOpens && |scene.lights| > MAXLIGHTS
    ensures r.Written? ==> WellFormedData(r.data, maxMaterials)
    ensures r.Written? ==> r.data.grid == scene.grid
    ensures r.Written? ==> r.data.lightCount == |scene.lights| && r.data.lights[..r.data.lightCount] == scene.lights
    ensures r.Written? ==> HoldsMaterials(r.data, scene, maxMaterials)
    ensures r.Written? ==> r.data.keysForMaterials[..r.data.materialCount] == order[..r.data.materialCount]
  {
    if !fileOpens then OpenFailed
    else if |scene.lights| > MAXLIGHTS then SlotOverrun
    else Written(Pack(scene, order, maxMaterials, |scene.lights|))
  }

  /**
   * `Scene::SaveLevelToFile` with the light count bounded by `MAXLIGHTS`, as
   * the material count is bounded by `maxMaterials`: an opened file always
   * receives a well-formed record holding the grid verbatim, the first lights
   * and the first materials in iteration order.
   */
  function SaveLevelClamped(scene: Scene, order: seq<Key>, maxMaterials: nat, fileOpens: bool): (r: SaveOutcome)
    requires ValidScene(scene) && IsEnumeration(order, scene.materials)
    ensures r == OpenFailed <==> !fileOpens
    ensures r != SlotOverrun
    ensures r.Written? ==> WellFormedData(r.data, maxMaterials)
    ensures r.Written? ==> r.data.grid == scene.grid
    ensures r.Written? ==> r.data.lightCount == Min(|scene.lights|, MAXLIGHTS)
    ensures r.Written? ==> r.data.lights[..r.data.lightCount] == scene.lights[..r.data.lightCount]
    ensures r.Written? ==> HoldsMaterials(r.data, scene, maxMaterials)
    ensures r.Written? ==> r.data.keysForMaterials[..r.data.materialCount] == order[..r.data.materialCount]
  {
    if !fileOpens then OpenFailed
    else Written(Pack(scene, order, maxMaterials, Min(|scene.lights|, MAXLIGHTS)))
  }

  /** A scene with one light more than the snapshot has slots. */
  function CrowdedScene(): (s: Scene)
    ensures ValidScene(s) && |s.lights| == MAXLIGHTS + 1 && s.materials == map[]
  {
    Scene(EmptyGrid(), seq(MAXLIGHTS + 1, _ => DefaultLight()), map[], NewMaterial())
  }

  /** As written, saving a scene with 33 lights overruns the 32 light slots. */
  lemma SaveAsWrittenOverrunsLightSlots(maxMaterials: nat)
    ensures SaveLevelAsWritten(CrowdedScene(), [], maxMaterials, true) == SlotOverrun
    ensures SaveLevelClamped(CrowdedScene(), [], maxMaterials, true).Written?
  {}

  /** When the lights fit their slots the bounded save is the save as written. */
  lemma SaveVariantsAgreeWhenLightsFit(scene: Scene, order: seq<Key>, maxMaterials: nat, fileOpens: bool)
    requires ValidScene(scene) && IsEnumeration(order, scene.materials)
    requires |scene.lights| <= MAXLIGHTS
    ensures SaveLevelAsWritten(scene, order, maxMaterials, fileOpens) == SaveLevelClamped(scene, order, maxMaterials, fileOpens)
  {}

  /**
   * The material table rebuilt from the first `n` slots, entry by entry, a
   * later slot overwriting an earlier one with the same key.
   */
  function BuildMaterials(keys: seq<Key>, mats: seq<Material>, n: nat): (m: map<Key, Material>)
    requires n <= |keys| && n <= |mats|
    ensures forall k :: k in m <==> k in keys[..n]
    ensures forall i :: 0 <= i < n && (forall j :: i < j < n ==> keys[j] != keys[i]) ==> m[keys[i]] == mats[i]
  {
    if n == 0 then map[]
    else
      var m := BuildMaterials(keys, mats, n - 1);
      assert keys[..n] == keys[..n - 1] + [keys[n - 1]];
      assert forall k :: k in keys[..n] <==> k in keys[..n - 1] || k == keys[n - 1];
      m[keys[n - 1] := mats[n - 1]]
  }

  /** What a load leaves: the scene and the boolean returned. */
  datatype Loaded = Loaded(scene: Scene, ok: bool)

  /**
   * `Scene::LoadLevelFromFile`. A file that does not open (`None`) falls
   * back to the default level and reports failure. Otherwise the material
   * table is rebuilt from the record's slots, the grid is copied from the
   * record, and the light list is replaced by the record's counted lights.
   */
  function LoadLevelFromFile(scene: Scene, file: Option<SceneData>, maxMaterials: nat, solid: Cell -> bool): (r: Loaded)
    requires ValidScene(scene)
    requires file.Some? ==> WellFormedData(file.value, maxMaterials)
    ensures ValidScene(r.scene)
    ensures r.ok <==> file.Some?
    ensures file.None? ==> r.scene == LoadDefaultLevel(scene, solid)
    ensures file.Some? ==> r.scene.grid == file.value.grid
    ensures file.Some? ==> r.scene.lights == file.value.lights[..file.value.lightCount]
    ensures file.Some? ==> forall k :: k in r.scene.materials <==> k in file.value.keysForMaterials[..file.value.materialCount]
    ensures file.Some? ==> r.scene.materials == BuildMaterials(file.value.keysForMaterials, file.value.materials, file.value.materialCount)
    ensures r.scene.defaultMaterial == scene.defaultMaterial
  {
    match file
    case None => Loaded(LoadDefaultLevel(scene, solid), false)
    case Some(d) =>
      var materials := BuildMaterials(d.keysForMaterials, d.materials, d.materialCount);
      Loaded(Scene(d.grid, d.lights[..d.lightCount], materials, scene.defaultMaterial), true)
  }

  /**
   * Distinct keys listed with the table's own materials rebuild exactly the
   * table.
   */
  lemma {:induction false} RebuildFromEnumeration(materials: map<Key, Material>, order: seq<Key>, d: SceneData)
    requires IsEnumeration(order, materials)
    requires d.materialCount == |order| <= |d.keysForMaterials| && |order| <= |d.materials|
    requires d.keysForMaterials[..|order|] == order
    requires forall i :: 0 <= i < |order| ==> d.materials[i] == materials[order[i]]
    ensures BuildMaterials(d.keysForMaterials, d.materials, d.materialCount) == materials
  {
    var m := BuildMaterials(d.keysForMaterials, d.materials, d.materialCount);
    assert forall k :: k in m <==> k in materials;
    forall k | k in materials ensures m[k] == materials[k] {
      var i :| 0 <= i < |order| && order[i] == k;
      RebuildEntry(materials, order, d, i);
    }
  }

  /** The slot of a listed key is its last slot, so the rebuilt entry is the table's. */
  lemma RebuildEntry(materials: map<Key, Material>, order: seq<Key>, d: SceneData, i: nat)
    requires IsEnumeration(order, materials)
    requires d.materialCount == |order| <= |d.keysForMaterials| && |order| <= |d.materials|
    requires d.keysForMaterials[..|order|] == order
    requires forall i :: 0 <= i < |order| ==> d.materials[i] == materials[order[i]]
    requires i < |order|
    ensures order[i] in BuildMaterials(d.keysForMaterials, d.materials, d.materialCount)
    ensures BuildMaterials(d.keysForMaterials, d.materials, d.materialCount)[order[i]] == materials[order[i]]
  {
    assert d.keysForMaterials[i] == order[i] by {
      assert d.keysForMaterials[..|order|][i] == order[i];
    }
    forall j | i < j < d.materialCount ensures d.keysForMaterials[j] != d.keysForMaterials[i] {
      assert d.keysForMaterials[j] == d.keysForMaterials[..|order|][j];
    }
  }

  /**
   * Round trip: saving a scene whose lights and materials fit the slots and
   * loading the record into any scene restores the grid, the light list and
   * the material table; only the loading scene's fallback material remains.
   */
  lemma SaveLoadRoundTrip(scene: Scene, target: Scene, order: seq<Key>, maxMaterials: nat, solid: Cell -> bool)
    requires ValidScene(scene) && ValidScene(target) && IsEnumeration(order, scene.materials)
    requires |scene.lights| <= MAXLIGHTS && |scene.materials| <= maxMaterials
    ensures SaveLevelClamped(scene, order, maxMaterials, true).Written?
    ensures LoadLevelFromFile(target, Some(SaveLevelClamped(scene, order, maxMaterials, true).data), maxMaterials, solid)
            == Loaded(scene.(defaultMaterial := target.defaultMaterial), true)
  {
    var d := SaveLevelClamped(scene, order, maxMaterials, true).data;
    assert d.lights[..d.lightCount] == scene.lights;
    assert order[..|order|] == order;
    RebuildFromEnumeration(scene.materials, order, d);
  }

  /**
   * The round trip holds for the save as written too, as long as the lights
   * fit the slots and the materials fit the limit.
   */
  lemma SaveAsWrittenLoadRoundTrip(scene: Scene, target: Scene, order: seq<Key>, maxMaterials: nat, solid: Cell -> bool)
    requires ValidScene(scene) && ValidScene(target) && IsEnumeration(order, scene.materials)
    requires |scene.lights| <= MAXLIGHTS && |scene.materials| <= maxMaterials
    ensures SaveLevelAsWritten(scene, order, maxMaterials, true).Written?
    ensures LoadLevelFromFile(target, Some(SaveLevelAsWritten(scene, order, maxMaterials, true).data), maxMaterials, solid)
            == Loaded(scene.(defaultMaterial := target.defaultMaterial), true)
  {
    SaveVariantsAgreeWhenLightsFit(scene, order, maxMaterials, true);
    SaveLoadRoundTrip(scene, target, order, maxMaterials, solid);
  }

  /**
   * With more materials than slots, the round trip keeps exactly the first
   * `maxMaterials` keys in iteration order, each with its own material.
   */
  lemma SaveLoadTruncatesMaterials(scene: Scene, target: Scene, order: seq<Key>, maxMaterials: nat, solid: Cell -> bool)
    requires ValidScene(scene) && ValidScene(target) && IsEnumeration(order, scene.materials)
    requires |scene.materials| > maxMaterials
    ensures SaveLevelClamped(scene, order, maxMaterials, true).Written?
    ensures forall k :: k in LoadLevelFromFile(target, Some(SaveLevelClamped(scene, order, maxMaterials, true).data), maxMaterials, solid).scene.materials
                        <==> k in order[..maxMaterials]
    ensures forall k :: k in LoadLevelFromFile(target, Some(SaveLevelClamped(scene, order, maxMaterials, true).data), maxMaterials, solid).scene.materials ==>
              k in scene.materials
              && LoadLevelFromFile(target, Some(SaveLevelClamped(scene, order, maxMaterials, true).data), maxMaterials, solid).scene.materials[k] == scene.materials[k]
  {
    var d := SaveLevelClamped(scene, order, maxMaterials, true).data;
    var m := LoadLevelFromFile(target, Some(d), maxMaterials, solid).scene.materials;
    assert m == BuildMaterials(d.keysForMaterials, d.materials, d.materialCount);
    assert d.keysForMaterials[..d.materialCount] == order[..maxMaterials];
    forall k | k in m ensures k in scene.materials && m[k] == scene.materials[k] {
      var i :| 0 <= i < maxMaterials && d.keysForMaterials[..d.materialCount][i] == k;
      assert d.keysForMaterials[i] == k;
      assert forall j :: i < j < d.materialCount ==> d.keysForMaterials[j] != d.keysForMaterials[i];
    }
  }

  /**
   * After a failed load the level material answers key 1, flagged valid,
   * and the grid is the noise level: key 1 on solid cells, empty elsewhere.
   */
  lemma FailedLoadServesLevelMaterial(scene: Scene, maxMaterials: nat, solid: Cell -> bool)
    requires ValidScene(scene)
    ensures !LoadLevelFromFile(scene, None, maxMaterials, solid).ok
    ensures GetMaterialByKey(LoadLevelFromFile(scene, None, maxMaterials, solid).scene.materials, scene.defaultMaterial, DEFAULT_LEVEL_KEY)
            == Ok(Lookup(DEFAULT_LEVEL_MATERIAL, true))
    ensures forall c :: InBounds(c) ==>
              KeyAt(LoadLevelFromFile(scene, None, maxMaterials, solid).scene.grid, c)
              == (if solid(c) then DEFAULT_LEVEL_KEY else NOMATERIALKEY)
  {}
}
