/** The drawable objects and the global rendering switches the frame reads. */
module Scene {
  import opened Transform

  /**
   * A `Renderable`: its world matrix and whether it carries a diffuse and a
   * normal texture. Mesh and texture handles are not modelled, and neither
   * are the `meshType` and `drawMode` tags, which nothing reads.
   */
  datatype Renderable = Renderable(modelMat: Mat, hasDiffuseMap: bool, hasNormalMap: bool)

  /** The `utils::globals` switches that the update and draw code consult. */
  datatype RenderConfig = RenderConfig(
    useDiffuseMap: bool,
    useNormalMap: bool,
    sunlight: bool,
    pauseBezierPath: bool,
    pauseHierarchyTransform: bool)
}
