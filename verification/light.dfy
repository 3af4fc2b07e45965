/** Light records, their defaults, factories and the light vector. */
module Lights {
  import opened Vectors

  datatype LightType = Point | Directional | Spot | Area | Unknown

  /** `Light`; the C++ member `type` is called `lightType` here. */
  datatype Light = Light(
    lightType: LightType,
    name: string,
    pos: Vec3,
    direction: Vec3,
    range: real,
    color: Vec3,
    intensity: real,
    innerConeAngle: real,
    outerConeAngle: real,
    isEnabled: bool)

  /** A light as its member initializers leave it. */
  function DefaultLight(): (l: Light)
    ensures l.lightType == Unknown && l.isEnabled && l.name == "name"
    ensures l.pos == Zero && l.direction == Vec3(0.0, 0.0, 1.0)
    ensures l.range == 1.0 && l.color == Vec3(1.0, 0.0, 1.0) && l.intensity == 1.0
    ensures l.innerConeAngle == 0.0 && l.outerConeAngle == 1.0
  {
    Light(Unknown, "name", Vec3(0.0, 0.0, 0.0), Vec3(0.0, 0.0, 1.0), 1.0,
          Vec3(1.0, 0.0, 1.0), 1.0, 0.0, 1.0, true)
  }

  /** `l` agrees with the default light on every field but type and name. */
  predicate DefaultBeyondTypeAndName(l: Light) {
    l.(lightType := Unknown, name := "name") == DefaultLight()
  }

  function CreatePoint(): (l: Light)
    ensures l.lightType == Point && l.name == "Point light source"
    ensures DefaultBeyondTypeAndName(l)
  {
    DefaultLight().(lightType := Point, name := "Point light source")
  }

  function CreateDirectional(): (l: Light)
    ensures l.lightType == Directional && l.name == "Directional light source"
    ensures DefaultBeyondTypeAndName(l)
  {
    DefaultLight().(lightType := Directional, name := "Directional light source")
  }

  function CreateSpot(): (l: Light)
    ensures l.lightType == Spot && l.name == "Spot light source"
    ensures DefaultBeyondTypeAndName(l)
  {
    DefaultLight().(lightType := Spot, name := "Spot light source")
  }

  function CreateArea(): (l: Light)
    ensures l.lightType == Area && l.name == "Area light source"
    ensures DefaultBeyondTypeAndName(l)
  {
    DefaultLight().(lightType := Area, name := "Area light source")
  }

  /**
   * Point light from position, range, color and intensity; every other field,
   * the placeholder name included, keeps its default.
   */
  function CreatePointFrom(pos: Vec3, range: real, color: Vec3, intensity: real): (l: Light)
    ensures l.lightType == Point
    ensures l.pos == pos && l.range == range && l.color == color && l.intensity == intensity
    ensures l.(lightType := Unknown, pos := Zero, range := 1.0, color := Vec3(1.0, 0.0, 1.0), intensity := 1.0) == DefaultLight()
  {
    var l := DefaultLight();
    l.(lightType := Point, pos := pos, range := range, color := color, intensity := intensity)
  }

  /** Directional light from direction, color and intensity; all else default. */
  function CreateDirectionalFrom(direction: Vec3, color: Vec3, intensity: real): (l: Light)
    ensures l.lightType == Directional
    ensures l.direction == direction && l.color == color && l.intensity == intensity
    ensures l.(lightType := Unknown, direction := Vec3(0.0, 0.0, 1.0), color := Vec3(1.0, 0.0, 1.0), intensity := 1.0) == DefaultLight()
  {
    var l := DefaultLight();
    l.(lightType := Directional, direction := direction, color := color, intensity := intensity)
  }

  /** Spot light from all seven spot parameters; name and enable flag default. */
  function CreateSpotFrom(pos: Vec3, direction: Vec3, range: real, color: Vec3, intensity: real,
                          innerConeAngle: real, outerConeAngle: real): (l: Light)
    ensures l.lightType == Spot
    ensures l.pos == pos && l.direction == direction && l.range == range && l.color == color
    ensures l.intensity == intensity && l.innerConeAngle == innerConeAngle && l.outerConeAngle == outerConeAngle
    ensures l.name == "name" && l.isEnabled
  {
    var l := DefaultLight();
    l.(lightType := Spot, pos := pos, direction := direction, range := range, color := color,
       intensity := intensity, innerConeAngle := innerConeAngle, outerConeAngle := outerConeAngle)
  }

  /**
   * The parameterised factories do not rename the light: a point light built
   * from parameters is called "name", one built without is not.
   */
  lemma ParameterisedFactoriesKeepPlaceholderName(pos: Vec3, direction: Vec3, range: real, color: Vec3, intensity: real)
    ensures CreatePointFrom(pos, range, color, intensity).name == "name" != CreatePoint().name
    ensures CreateDirectionalFrom(direction, color, intensity).name == "name" != CreateDirectional().name
  {}

  /**
   * `Light::GetLightVector`: from the light to the pixel for point and spot
   * lights, the light's direction for a directional light, zero otherwise.
   */
  function GetLightVector(pixelPos: Vec3, light: Light): (v: Vec3)
    ensures light.lightType in {Point, Spot} ==> light.pos.Add(v) == pixelPos
    ensures light.lightType == Directional ==> v == light.direction
    ensures light.lightType in {Area, Unknown} ==> v == Zero
  {
    match light.lightType
    case Point => pixelPos.Sub(light.pos)
    case Directional => light.direction
    case Spot => pixelPos.Sub(light.pos)
    case Area => Zero
    case Unknown => Zero
  }
}
