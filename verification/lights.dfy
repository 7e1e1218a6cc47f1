/**
 * The light records of the scene and their constructors. Colours and
 * positions are real vectors; a normalised direction is kept symbolically
 * as `Normalized(raw)`, since `glm::normalize` is float arithmetic.
 */
module Lights {
  import opened Vec
  import opened Attenuation

  /** `StateType`: an informational static/dynamic tag. */
  datatype StateType = Static | Dynamic

  /** The unit vector `glm::normalize(raw)`. */
  datatype Direction = Normalized(raw: Vec3)

  datatype DirectionalLight = DirectionalLight(
    direction: Direction, diffuseColor: Vec3, specularColor: Vec3, lightType: StateType)

  datatype PointLight = PointLight(
    position: Vec3, attenuationCoefficients: Coeffs,
    diffuseColor: Vec3, specularColor: Vec3, lightType: StateType)

  /** Cutoff angles are half-angles in radians; they are turned into cosines
      only when bound to the shader. */
  datatype SpotLight = SpotLight(
    position: Vec3, direction: Direction, attenuationCoefficients: Coeffs,
    innerCutoffAngle: real, outerCutoffAngle: real,
    diffuseColor: Vec3, specularColor: Vec3, lightType: StateType)

  /** The `DirectionalLight` constructor. */
  function MakeDirectionalLight(dir: Vec3, diffuse: Vec3, specular: Vec3, kind: StateType): (l: DirectionalLight)
    ensures l.direction == Normalized(dir)
    ensures l.diffuseColor == diffuse && l.specularColor == specular && l.lightType == kind
  {
    DirectionalLight(Normalized(dir), diffuse, specular, kind)
  }

  /** The `PointLight` constructor: the attenuation pair is looked up from
      the max distance and is positive in both terms. */
  function MakePointLight(pos: Vec3, diffuse: Vec3, specular: Vec3, maxDistance: real, kind: StateType): (l: PointLight)
    ensures l.position == pos
    ensures l.attenuationCoefficients == GetAttenuationCoefficient(maxDistance)
    ensures 0.0 < l.attenuationCoefficients.linear && 0.0 < l.attenuationCoefficients.quadratic
    ensures l.diffuseColor == diffuse && l.specularColor == specular && l.lightType == kind
  {
    PointLight(pos, GetAttenuationCoefficient(maxDistance), diffuse, specular, kind)
  }

  /** The `SpotLight` constructor: the attenuation pair is looked up from the
      max distance and both cutoff angles are stored as given, in radians. */
  function MakeSpotLight(pos: Vec3, dir: Vec3, innerCutoff: real, outerCutoff: real,
                         diffuse: Vec3, specular: Vec3, maxDistance: real, kind: StateType): (l: SpotLight)
    ensures l.position == pos && l.direction == Normalized(dir)
    ensures l.attenuationCoefficients == GetAttenuationCoefficient(maxDistance)
    ensures 0.0 < l.attenuationCoefficients.linear && 0.0 < l.attenuationCoefficients.quadratic
    ensures l.innerCutoffAngle == innerCutoff && l.outerCutoffAngle == outerCutoff
    ensures l.diffuseColor == diffuse && l.specularColor == specular && l.lightType == kind
  {
    SpotLight(pos, Normalized(dir), GetAttenuationCoefficient(maxDistance),
              innerCutoff, outerCutoff, diffuse, specular, kind)
  }
}
