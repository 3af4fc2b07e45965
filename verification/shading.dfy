/**
 * Direct lighting of one light at a shading point: `Scene::ShadowRay` and
 * the older `LightHandler::ShadowRay`.
 *
 * `length` and `normalize` are float geometry and the occlusion test is the
 * grid traversal run on a shadow ray; all three are given as functions in an
 * `Optics` record, so the dispatch is modelled exactly and the geometry not
 * at all.
 */
module Shading {
  import opened Vectors
  import opened Results
  import opened Lights

  /**
   * A shadow ray: origin, direction and, when given, its length; without a
   * length the ray keeps the default length of a freshly constructed ray.
   */
  datatype Query = Query(origin: Vec3, direction: Vec3, length: Option<real>)

  datatype Optics = Optics(length: Vec3 -> real, normalize: Vec3 -> Vec3, occluded: Query -> bool)

  /** A light's contribution and the occlusion query issued for it, if any. */
  datatype Shade = Shade(color: Vec3, query: Option<Query>)

  /** The light types `Scene::ShadowRay` refuses by aborting. */
  datatype ShadeError = SpotUnsupported | UnknownLightType

  /** The contribution of a light that adds nothing and traces nothing. */
  const Dark: Shade := Shade(Zero, None)

  /** Quotient of reals; a zero divisor, where float division gives an infinity or NaN, gives 0 here. */
  function Ratio(a: real, b: real): real {
    if b == 0.0 then 0.0 else a / b
  }

  /** The shadow ray of a point light: from the light toward the pixel, as long as the gap. */
  function PointQuery(light: Light, pixelPos: Vec3, optics: Optics): Query {
    var v := pixelPos.Sub(light.pos);
    Query(light.pos, optics.normalize(v), Some(optics.length(v)))
  }

  /** The shadow ray of a directional light: from the pixel against the light's direction. */
  function DirectionalQuery(light: Light, pixelPos: Vec3): Query {
    Query(pixelPos, light.direction.Neg(), None)
  }

  /** Unoccluded point light: color, linear falloff over the range, intensity, cosine term. */
  function PointLit(light: Light, pixelPos: Vec3, pixelNormal: Vec3, optics: Optics): Vec3 {
    var v := pixelPos.Sub(light.pos);
    var d := optics.length(v);
    light.color.Scale(Ratio(light.range - d, light.range)).Scale(light.intensity).Scale(pixelNormal.Dot(optics.normalize(v).Neg()))
  }

  /** Unoccluded directional light: color, intensity, cosine term. */
  function DirectionalLit(light: Light, pixelNormal: Vec3): Vec3 {
    light.color.Scale(light.intensity).Scale(pixelNormal.Dot(light.direction.Neg()))
  }

  /** Shades with `lit` unless the shadow ray `q` is blocked. */
  function Traced(q: Query, lit: Vec3, optics: Optics): (s: Shade)
    ensures s.query == Some(q)
    ensures s.color == if optics.occluded(q) then Zero else lit
  {
    if optics.occluded(q) then Shade(Zero, Some(q)) else Shade(lit, Some(q))
  }

  /**
   * `Scene::ShadowRay`. A disabled light and a point light farther away than
   * its range contribute nothing without tracing; point and directional
   * lights contribute nothing when their shadow ray is blocked; spot, area
   * and unknown lights are refused.
   */
  function ShadowRay(light: Light, pixelPos: Vec3, pixelNormal: Vec3, optics: Optics): (r: Result<Shade, ShadeError>)
    ensures !light.isEnabled ==> r == Ok(Dark)
    ensures light.isEnabled && light.lightType == Spot ==> r == Err(SpotUnsupported)
    ensures light.isEnabled && light.lightType in {Area, Unknown} ==> r == Err(UnknownLightType)
    ensures r.Err? <==> light.isEnabled && light.lightType in {Spot, Area, Unknown}
    ensures light.isEnabled && light.lightType == Point && optics.length(pixelPos.Sub(light.pos)) > light.range ==> r == Ok(Dark)
    ensures light.isEnabled && light.lightType == Point && optics.length(pixelPos.Sub(light.pos)) <= light.range ==>
              r.Ok? && r.value.query == Some(PointQuery(light, pixelPos, optics))
    ensures light.isEnabled && light.lightType == Directional ==>
              r.Ok? && r.value.query == Some(DirectionalQuery(light, pixelPos))
    ensures r.Ok? && r.value.query.Some? && optics.occluded(r.value.query.value) ==> r.value.color == Zero
    ensures r.Ok? && r.value.color != Zero ==> r.value.query.Some? && !optics.occluded(r.value.query.value)
    ensures light.isEnabled && light.lightType == Point && optics.length(pixelPos.Sub(light.pos)) <= light.range
            && !optics.occluded(PointQuery(light, pixelPos, optics)) ==>
              r.Ok? && r.value.color == PointLit(light, pixelPos, pixelNormal, optics)
    ensures light.isEnabled && light.lightType == Directional && !optics.occluded(DirectionalQuery(light, pixelPos)) ==>
              r.Ok? && r.value.color == DirectionalLit(light, pixelNormal)
  {
    if !light.isEnabled then Ok(Dark)
    else
      match light.lightType
      case Point =>
        if optics.length(pixelPos.Sub(light.pos)) > light.range then Ok(Dark)
        else Ok(Traced(PointQuery(light, pixelPos, optics), PointLit(light, pixelPos, pixelNormal, optics), optics))
      case Directional =>
        Ok(Traced(DirectionalQuery(light, pixelPos), DirectionalLit(light, pixelNormal), optics))
      case Spot => Err(SpotUnsupported)
      case Area => Err(UnknownLightType)
      case Unknown => Err(UnknownLightType)
  }

  /**
   * `LightHandler::ShadowRay`: like `Scene::ShadowRay` but without the range
   * early-out, and spot and other types contribute nothing instead of being
   * refused.
   */
  function HandlerShadowRay(light: Light, pixelPos: Vec3, pixelNormal: Vec3, optics: Optics): (s: Shade)
    ensures !light.isEnabled ==> s == Dark
    ensures light.isEnabled && light.lightType in {Spot, Area, Unknown} ==> s == Dark
    ensures light.isEnabled && light.lightType == Point ==> s.query == Some(PointQuery(light, pixelPos, optics))
    ensures light.isEnabled && light.lightType == Directional ==> s.query == Some(DirectionalQuery(light, pixelPos))
    ensures s.query.Some? && optics.occluded(s.query.value) ==> s.color == Zero
    ensures light.isEnabled && light.lightType == Point && !optics.occluded(PointQuery(light, pixelPos, optics)) ==>
              s.color == PointLit(light, pixelPos, pixelNormal, optics)
    ensures light.isEnabled && light.lightType == Directional && !optics.occluded(DirectionalQuery(light, pixelPos)) ==>
              s.color == DirectionalLit(light, pixelNormal)
  {
    if !light.isEnabled then Dark
    else
      match light.lightType
      case Point => Traced(PointQuery(light, pixelPos, optics), PointLit(light, pixelPos, pixelNormal, optics), optics)
      case Directional => Traced(DirectionalQuery(light, pixelPos), DirectionalLit(light, pixelNormal), optics)
      case Spot => Dark
      case Area => Dark
      case Unknown => Dark
  }

  /**
   * The shadow rays follow the light vector: a point light's starts at the
   * light and points along the vector to the pixel, a directional light's
   * starts at the pixel and points against the light's direction.
   */
  lemma ShadowQueryFollowsLightVector(light: Light, pixelPos: Vec3, optics: Optics)
    ensures light.lightType == Point ==>
              var q := PointQuery(light, pixelPos, optics);
              q.origin.Add(GetLightVector(pixelPos, light)) == pixelPos
              && q.direction == optics.normalize(GetLightVector(pixelPos, light))
              && q.length == Some(optics.length(GetLightVector(pixelPos, light)))
    ensures light.lightType == Directional ==>
              DirectionalQuery(light, pixelPos).direction == GetLightVector(pixelPos, light).Neg()
              && DirectionalQuery(light, pixelPos).origin == pixelPos
  {}

  /**
   * Wherever the scene's variant neither refuses the light nor cuts a point
   * light off by range, the handler's variant gives the same contribution
   * and issues the same query.
   */
  lemma ShadowRayVariantsAgree(light: Light, pixelPos: Vec3, pixelNormal: Vec3, optics: Optics)
    requires ShadowRay(light, pixelPos, pixelNormal, optics).Ok?
    requires !(light.isEnabled && light.lightType == Point && optics.length(pixelPos.Sub(light.pos)) > light.range)
    ensures HandlerShadowRay(light, pixelPos, pixelNormal, optics) == ShadowRay(light, pixelPos, pixelNormal, optics).value
  {}

  /**
   * Beyond its range an unoccluded point light is dark in the scene's variant,
   * while the handler's variant traces it and scales its color by a negative
   * falloff.
   */
  lemma HandlerIgnoresRange(light: Light, pixelPos: Vec3, pixelNormal: Vec3, optics: Optics)
    requires light.isEnabled && light.lightType == Point
    requires 0.0 < light.range < optics.length(pixelPos.Sub(light.pos))
    requires !optics.occluded(PointQuery(light, pixelPos, optics))
    ensures ShadowRay(light, pixelPos, pixelNormal, optics) == Ok(Dark)
    ensures HandlerShadowRay(light, pixelPos, pixelNormal, optics).color == PointLit(light, pixelPos, pixelNormal, optics)
    ensures Ratio(light.range - optics.length(pixelPos.Sub(light.pos)), light.range) < 0.0
  {
    var d := optics.length(pixelPos.Sub(light.pos));
    assert light.range - d < 0.0;
    assert (light.range - d) / light.range < 0.0;
  }

  /** The handler's variant never refuses: spot, area and unknown lights are dark. */
  lemma HandlerDarkWhereSceneRefuses(light: Light, pixelPos: Vec3, pixelNormal: Vec3, optics: Optics)
    requires ShadowRay(light, pixelPos, pixelNormal, optics).Err?
    ensures HandlerShadowRay(light, pixelPos, pixelNormal, optics) == Dark
  {}
}
