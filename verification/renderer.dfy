/**
 * The renderer's decisions: what `Trace` returns for a primary ray, and how
 * the user interface keeps `selectedLightIndex` in step with the light list.
 */
module Renderer {
  import opened Vectors
  import opened Results
  import opened Grid
  import opened Lights
  import opened Shading
  import opened Traversal
  import opened SceneStore
  import opened Materials

  /** The constant sky color. */
  const SKY: Vec3 := Vec3(0.4235, 0.7255, 0.9686)

  /** `Renderer::GetSkyColor`: the same color whatever the ray. */
  function GetSkyColor(ray: Ray): (c: Vec3)
    ensures c == SKY
  {
    SKY
  }

  /**
   * What the ray's own accessors give for a hit: the surface normal, the
   * intersection point and the albedo.
   */
  datatype Surface = Surface(normal: Vec3, point: Vec3, albedo: Vec3)

  /** The light's shading would abort the program. */
  predicate Refused(light: Light) {
    light.isEnabled && light.lightType in {Spot, Area, Unknown}
  }

  /**
   * The loop of `Trace` over the scene's lights: starting from black, add
   * `albedo * ShadowRay(light)` in list order; a refused light aborts.
   */
  function LightSum(lights: seq<Light>, s: Surface, optics: Optics): (r: Result<Vec3, ShadeError>)
    ensures r.Err? <==> exists i :: 0 <= i < |lights| && Refused(lights[i])
    decreases |lights|
  {
    if lights == [] then Ok(Zero)
    else
      var init := lights[..|lights| - 1];
      var last := lights[|lights| - 1];
      assert forall i :: 0 <= i < |init| ==> init[i] == lights[i];
      match LightSum(init, s, optics)
      case Err(e) => Err(e)
      case Ok(acc) =>
        match ShadowRay(last, s.point, s.normal, optics)
        case Err(e) => Err(e)
        case Ok(shade) => Ok(acc.Add(s.albedo.Mul(shade.color)))
  }

  /**
   * The sum over a concatenation is the sum of the sums: lights add up
   * independently of how the list is split.
   */
  lemma {:induction false} LightSumAppend(a: seq<Light>, b: seq<Light>, s: Surface, optics: Optics)
    requires LightSum(a + b, s, optics).Ok?
    ensures LightSum(a, s, optics).Ok? && LightSum(b, s, optics).Ok?
    ensures LightSum(a + b, s, optics).value == LightSum(a, s, optics).value.Add(LightSum(b, s, optics).value)
    decreases |b|
  {
    if b == [] {
      assert a + b == a;
    } else {
      var b' := b[..|b| - 1];
      var last := b[|b| - 1];
      assert (a + b)[..|a + b| - 1] == a + b';
      assert (a + b)[|a + b| - 1] == last;
      assert forall i :: 0 <= i < |a + b'| ==> (a + b')[i] == (a + b)[i];
      assert LightSum(a + b', s, optics).Ok?;
      LightSumAppend(a, b', s, optics);
    }
  }

  /** Reordering the light list by swapping two blocks does not change a successful sum. */
  lemma LightSumOrderIrrelevant(a: seq<Light>, b: seq<Light>, s: Surface, optics: Optics)
    requires LightSum(a + b, s, optics).Ok?
    ensures LightSum(b + a, s, optics) == LightSum(a + b, s, optics)
  {
    LightSumAppend(a, b, s, optics);
    forall i | 0 <= i < |b + a|
      ensures !Refused((b + a)[i])
    {
      if i < |b| {
        assert (b + a)[i] == (a + b)[|a| + i];
      } else {
        assert (b + a)[i] == (a + b)[i - |b|];
      }
    }
    LightSumAppend(b, a, s, optics);
  }

  /** A disabled light adds nothing to the sum. */
  lemma LightSumSkipsDisabled(lights: seq<Light>, light: Light, s: Surface, optics: Optics)
    requires !light.isEnabled
    ensures LightSum(lights + [light], s, optics) == LightSum(lights, s, optics)
  {
    assert (lights + [light])[..|lights + [light]| - 1] == lights;
  }

  /**
   * `Renderer::Trace` for a primary ray: find the nearest hit; a miss or a
   * hit behind the origin is the sky, any other hit the sum over the scene's
   * lights. `slab` is the slab outcome of the nudged ray and `surface` gives
   * the hit's normal, point and albedo.
   */
  function Trace(scene: Scene, ray: Ray, slab: Slab, surface: Ray -> Surface, optics: Optics): (r: Result<Vec3, ShadeError>)
    requires ValidScene(scene)
    ensures FindNearest(scene.grid, ray, slab).voxelKey == NOMATERIALKEY ==> r == Ok(SKY)
    ensures FindNearest(scene.grid, ray, slab).t < 0.0 ==> r == Ok(SKY)
    ensures FindNearest(scene.grid, ray, slab).voxelKey != NOMATERIALKEY && FindNearest(scene.grid, ray, slab).t >= 0.0 ==>
              r == LightSum(scene.lights, surface(FindNearest(scene.grid, ray, slab)), optics)
    ensures r.Err? ==> exists i :: 0 <= i < |scene.lights| && Refused(scene.lights[i])
    ensures scene.lights == [] ==> r == Ok(SKY) || r == Ok(Zero)
  {
    var hit := FindNearest(scene.grid, ray, slab);
    if hit.voxelKey == NOMATERIALKEY then Ok(GetSkyColor(hit))
    else if hit.t < 0.0 then Ok(GetSkyColor(hit))
    else LightSum(scene.lights, surface(hit), optics)
  }

  /**
   * A fresh ray, whose key is still empty, that misses the grid's cube sees
   * the sky.
   */
  lemma TraceMissIsSky(scene: Scene, ray: Ray, slab: Slab, surface: Ray -> Surface, optics: Optics)
    requires ValidScene(scene) && ray.voxelKey == NOMATERIALKEY
    requires !PointInCube(Nudge(ray).O) && !slab.entered
    ensures Trace(scene, ray, slab, surface, optics) == Ok(SKY)
  {}

  /** The state of the light editor: the scene and `selectedLightIndex`. */
  datatype UiState = UiState(scene: Scene, selected: int)

  /** No light is selected, or the selection is a position in the light list. */
  predicate ValidSelection(ui: UiState) {
    ui.selected == -1 || 0 <= ui.selected < |ui.scene.lights|
  }

  /** The "Select" button of row `row`. */
  function SelectRow(ui: UiState, row: int): (r: UiState)
    requires 0 <= row < |ui.scene.lights|
    ensures ValidSelection(r)
    ensures r.scene == ui.scene && r.selected == row
  {
    ui.(selected := row)
  }

  /** The selection after row `row` is deleted. */
  function AdjustSelection(selected: int, row: int): (r: int)
    requires 0 <= row
    ensures selected == row ==> r == -1
    ensures selected > row ==> r == selected - 1
    ensures selected < row ==> r == selected
  {
    var s := if selected == row then -1 else selected;
    if s > row then s - 1 else s
  }

  /** The "Delete" button of row `row`: remove the light, then adjust the selection. */
  function DeleteRow(ui: UiState, row: int): (r: UiState)
    requires ValidScene(ui.scene) && 0 <= row < |ui.scene.lights|
    ensures r.scene == SceneStore.RemoveLight(ui.scene, row).scene
    ensures r.selected == AdjustSelection(ui.selected, row)
  {
    UiState(SceneStore.RemoveLight(ui.scene, row).scene, AdjustSelection(ui.selected, row))
  }

  /**
   * After a deletion a valid selection stays valid, and unless the selected
   * light was the one deleted it still designates the same light.
   */
  lemma DeleteKeepsSelectedLight(ui: UiState, row: int)
    requires ValidScene(ui.scene) && 0 <= row < |ui.scene.lights|
    requires ValidSelection(ui)
    ensures ValidSelection(DeleteRow(ui, row))
    ensures ui.selected != -1 && ui.selected != row ==>
              DeleteRow(ui, row).scene.lights[DeleteRow(ui, row).selected] == ui.scene.lights[ui.selected]
    ensures ui.selected == row ==> DeleteRow(ui, row).selected == -1
  {}

  /** Reading the selected light out of range throws; nothing else goes wrong. */
  datatype UiError = SelectionOutOfRange

  /**
   * The "Selected light" window: with a selection it reads the selected
   * light with a bounds-checked access, which throws when the index is out
   * of range; closing the window clears the selection.
   */
  function SelectedLightWindow(ui: UiState, closed: bool): (r: Result<UiState, UiError>)
    ensures r.Err? <==> !ValidSelection(ui)
    ensures r.Ok? ==> r.value.scene == ui.scene
    ensures r.Ok? && closed ==> r.value.selected == -1
    ensures r.Ok? && !closed ==> r.value.selected == ui.selected
  {
    if ui.selected == -1 then Ok(ui)
    else if !(0 <= ui.selected < |ui.scene.lights|) then Err(SelectionOutOfRange)
    else Ok(ui.(selected := if closed then -1 else ui.selected))
  }

  /** The window keeps a valid selection valid. */
  lemma WindowKeepsSelectionValid(ui: UiState, closed: bool)
    requires ValidSelection(ui)
    ensures SelectedLightWindow(ui, closed).Ok?
    ensures ValidSelection(SelectedLightWindow(ui, closed).value)
  {}

  /**
   * The "Load level from a file" button as written: the scene is reloaded
   * and the selection is left as it was.
   */
  function LoadLevelButton(ui: UiState, file: Option<SceneData>, maxMaterials: nat, solid: Cell -> bool): (r: UiState)
    requires ValidScene(ui.scene)
    requires file.Some? ==> WellFormedData(file.value, maxMaterials)
    ensures r.selected == ui.selected
    ensures r.scene == LoadLevelFromFile(ui.scene, file, maxMaterials, solid).scene
  {
    UiState(LoadLevelFromFile(ui.scene, file, maxMaterials, solid).scene, ui.selected)
  }

  /** A scene holding a single default light. */
  function OneLightScene(): (s: Scene)
    ensures ValidScene(s) && |s.lights| == 1
  {
    Scene(EmptyGrid(), [DefaultLight()], map[], NewMaterial())
  }

  /**
   * As written, loading a level with fewer lights strands the selection: the
   * first light is selected, a level without lights is loaded, and the
   * selected-light window then reads out of range.
   */
  lemma LoadStrandsSelection(maxMaterials: nat, solid: Cell -> bool)
    ensures ValidSelection(UiState(OneLightScene(), 0))
    ensures !ValidSelection(LoadLevelButton(UiState(OneLightScene(), 0), Some(BlankData(maxMaterials)), maxMaterials, solid))
    ensures SelectedLightWindow(LoadLevelButton(UiState(OneLightScene(), 0), Some(BlankData(maxMaterials)), maxMaterials, solid), false).Err?
  {
    assert BlankData(maxMaterials).lights[..0] == [];
  }

  /**
   * The load button with the selection cleared when it no longer designates
   * a light.
   */
  function LoadLevelButtonClearing(ui: UiState, file: Option<SceneData>, maxMaterials: nat, solid: Cell -> bool): (r: UiState)
    requires ValidScene(ui.scene)
    requires file.Some? ==> WellFormedData(file.value, maxMaterials)
    ensures ValidSelection(r)
    ensures r.scene == LoadLevelFromFile(ui.scene, file, maxMaterials, solid).scene
    ensures ValidSelection(ui.(scene := r.scene)) ==> r.selected == ui.selected
    ensures !ValidSelection(ui.(scene := r.scene)) ==> r.selected == -1
  {
    var loaded := LoadLevelFromFile(ui.scene, file, maxMaterials, solid).scene;
    var keep := ui.selected == -1 || 0 <= ui.selected < |loaded.lights|;
    UiState(loaded, if keep then ui.selected else -1)
  }

  /** With the clearing load button the selected-light window never throws. */
  lemma ClearingLoadKeepsWindowSafe(ui: UiState, file: Option<SceneData>, maxMaterials: nat, solid: Cell -> bool, closed: bool)
    requires ValidScene(ui.scene)
    requires file.Some? ==> WellFormedData(file.value, maxMaterials)
    ensures SelectedLightWindow(LoadLevelButtonClearing(ui, file, maxMaterials, solid), closed).Ok?
  {}
}
