/** Material records and the scene's key-to-material lookup. */
module Materials {
  import opened Vectors
  import opened Results
  import opened Grid

  datatype Material = Material(albedo: Vec3, metallic: real, roughness: real)

  /** Bright purple: the default albedo of a material. */
  const DEFAULT_ALBEDO: Vec3 := Vec3(0.75, 0.0, 0.75)

  /**
   * The record as its member initializers leave it, before the constructor
   * body runs; the initializer gives roughness 1.0.
   */
  const MEMBER_INITIALIZED: Material := Material(DEFAULT_ALBEDO, 0.0, 1.0)

  /**
   * The `Material` constructor, including its default arguments: the body
   * overwrites every member with the corresponding argument.
   */
  function NewMaterial(albedo: Vec3 := DEFAULT_ALBEDO, metallic: real := 0.0, roughness: real := 0.0): (m: Material)
    ensures m.albedo == albedo && m.metallic == metallic && m.roughness == roughness
  {
    MEMBER_INITIALIZED.(albedo := albedo, metallic := metallic, roughness := roughness)
  }

  /**
   * A default-constructed material is purple, non-metallic and has roughness
   * 0.0: the constructor's default argument wins over the member initializer.
   */
  lemma DefaultMaterialValues()
    ensures NewMaterial() == Material(Vec3(0.75, 0.0, 0.75), 0.0, 0.0)
    ensures NewMaterial().roughness != MEMBER_INITIALIZED.roughness
  {}

  /** What `GetMaterialByKey` hands back: a material and the `isKeyValid` flag. */
  datatype Lookup = Lookup(material: Material, isKeyValid: bool)

  /** Looking up the reserved empty key aborts the program. */
  datatype LookupError = ReservedKey

  /**
   * `Scene::GetMaterialByKey`: key 0 is an error; an unregistered key yields
   * the fallback material flagged invalid; a registered key yields its
   * material flagged valid.
   */
  function GetMaterialByKey(materials: map<Key, Material>, fallback: Material, key: Key): (r: Result<Lookup, LookupError>)
    ensures r.Err? <==> key == NOMATERIALKEY
    ensures r.Ok? ==> (r.value.isKeyValid <==> key in materials)
    ensures r.Ok? && key in materials ==> r.value.material == materials[key]
    ensures r.Ok? && key !in materials ==> r.value.material == fallback
  {
    if key == NOMATERIALKEY then Err(ReservedKey)
    else if key !in materials then Ok(Lookup(fallback, false))
    else Ok(Lookup(materials[key], true))
  }

  /** A material just stored under a nonzero key is found again, flagged valid. */
  lemma LookupAfterStore(materials: map<Key, Material>, fallback: Material, key: Key, m: Material)
    requires key != NOMATERIALKEY
    ensures GetMaterialByKey(materials[key := m], fallback, key) == Ok(Lookup(m, true))
  {}

  /**
   * Storing under one key does not change what any other key looks up,
   * including whether it falls back.
   */
  lemma LookupOtherKeyUnaffected(materials: map<Key, Material>, fallback: Material, key: Key, other: Key, m: Material)
    requires other != key
    ensures GetMaterialByKey(materials[key := m], fallback, other) == GetMaterialByKey(materials, fallback, other)
  {}
}
