/**
 * What the light-transport kernel learns from its collaborators (intersector,
 * BSDFs, camera). The collaborators themselves are not modelled: their answers
 * are recorded in these values.
 */
module Scene {
  import opened Optional
  import opened Spectra
  import opened Geometry

  /** The scattering mode a BSDF reports for a sampled direction. */
  datatype Mode = Diffuse | Glossy | Specular

  /**
   * A sampling probability: a density, or the Dirac-delta marker of a perfectly
   * specular lobe (the source's sentinel BSDF::DiracDelta).
   */
  datatype Prob = DiracDelta | Density(value: real)

  /** The outcome of sampling a BSDF: value, probability and scattering mode. */
  datatype BsdfSample = BsdfSample(value: Spectrum, prob: Prob, mode: Mode)

  /** A BSDF never returns negative values nor a zero or negative density. */
  predicate ValidBsdfSample(b: BsdfSample) {
    NonNegative(b.value) && (b.prob.Density? ==> b.prob.value > 0.0)
  }

  type Positive = x: real | x > 0.0 witness 1.0

  /**
   * What a connection from a point to the camera finds: the point's projection
   * in normalised device coordinates, the transmission along the connection,
   * |cos| of the angle between the connection and the camera's gaze, and the
   * squared length of the connection.
   */
  datatype CameraView = CameraView(ndc: Vec2, transmission: real, cosTheta: Positive, squareDistance: Positive)

  /** Which entities the material at a point has bound. */
  datatype MaterialBindings = MaterialBindings(hasSurfaceShader: bool, hasBsdf: bool)

  /**
   * The intersector's answer for one ray. Besides the hit flag, the bound
   * material and the alpha-mask value there, it records what the light tracer's
   * camera connection finds from this point and the BSDF value toward the camera.
   */
  datatype ShadingPoint = ShadingPoint(
    hit: bool,
    material: Option<MaterialBindings>,
    alpha: real,
    view: CameraView,
    bsdfToCamera: Spectrum)
}
