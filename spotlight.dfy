/**
 * The spot light: a point light emitting into a cone around its axis. Inside the
 * inner cone it emits its full exitance, between the inner and the outer cone it
 * fades smoothly, and outside the outer cone it is dark. Emission directions
 * are sampled uniformly in the outer cone.
 *
 * The trigonometric functions, the light's transform and the cone sampler are
 * given to the model as functions; the cosines of the half-angles and the
 * screen frame they produce are what the light keeps.
 */
module SpotLights {
  import opened Spectra
  import opened Geometry
  import opened Params
  import opened RealArith

  const Pi: real := 3.141592653589793

  const DefaultInnerAngle: real := 20.0
  const DefaultOuterAngle: real := 30.0
  const DefaultTiltAngle: real := 0.0

  /** foundation's deg_to_rad. */
  function DegToRad(degrees: real): (radians: real)
    ensures radians * 180.0 == degrees * Pi
  {
    degrees * Pi / 180.0
  }

  /**
   * foundation's smoothstep: 0 at or below a, 1 at or above b, and the Hermite
   * polynomial t²(3 − 2t) of t = (x − a) / (b − a) in between.
   */
  function Smoothstep(a: real, b: real, x: real): (r: real)
    requires a < b
    ensures x <= a ==> r == 0.0
    ensures x >= b ==> r == 1.0
    ensures a < x < b ==> 0.0 < r < 1.0
  {
    if x <= a then 0.0
    else if x >= b then 1.0
    else
      FractionInOpenUnitInterval(x - a, b - a);
      HermiteInOpenUnitInterval((x - a) / (b - a));
      Hermite((x - a) / (b - a))
  }

  /** The Hermite polynomial t²(3 − 2t). */
  function Hermite(t: real): real {
    Square(t) * (3.0 - 2.0 * t)
  }

  /** The Hermite polynomial maps (0, 1) into (0, 1). */
  lemma HermiteInOpenUnitInterval(t: real)
    requires 0.0 < t < 1.0
    ensures 0.0 < Hermite(t) < 1.0
  {
    var s := Square(t);
    var u := Square(1.0 - t);
    SquarePositive(t);
    SquarePositive(1.0 - t);
    ProductPositive(s, 3.0 - 2.0 * t);
    ProductPositive(u, 1.0 + 2.0 * t);
    assert u == 1.0 - 2.0 * t + s;
    assert s * (3.0 - 2.0 * t) == 3.0 * s - 2.0 * (t * s);
    assert u * (1.0 + 2.0 * t) == 1.0 - 3.0 * s + 2.0 * (t * s);
    assert Hermite(t) == s * (3.0 - 2.0 * t);
  }

  /**
   * The density of directions sampled uniformly in the cone of half-angle
   * acos(cosThetaMax): one over the cone's solid angle 2π(1 − cosThetaMax). A
   * cone of zero opening has no finite density; the model gives it 0.
   */
  function ConeUniformPdf(cosThetaMax: real): (pdf: real)
    ensures cosThetaMax < 1.0 ==> pdf * (2.0 * Pi * (1.0 - cosThetaMax)) == 1.0
    ensures cosThetaMax < 1.0 ==> pdf > 0.0
  {
    if cosThetaMax < 1.0 then
      var solidAngle := 2.0 * Pi * (1.0 - cosThetaMax);
      assert solidAngle > 0.0;
      1.0 / solidAngle
    else 0.0
  }

  /** The light's inputs evaluated at a point: the exitance and its multiplier. */
  datatype InputValues = InputValues(exitance: Spectrum, exitanceMultiplier: real)

  /**
   * The light's world-space frame: the emission axis and the two screen
   * directions used to map a direction to texture coordinates.
   */
  datatype ScreenFrame = ScreenFrame(axis: Vec3, tangentU: Vec3, normal: Vec3)

  /** Coordinates on the light's screen, [-1, 1]² over the outer cone. */
  datatype ScreenPoint = ScreenPoint(x: real, y: real)

  /** Texture coordinates of a screen point: [-1, 1] maps affinely onto [0, 1]. */
  function ScreenToUv(p: ScreenPoint): (uv: Vec2)
    ensures 2.0 * uv.x - 1.0 == p.x && 2.0 * uv.y - 1.0 == p.y
  {
    Vec2(0.5 * (p.x + 1.0), 0.5 * (p.y + 1.0))
  }

  /** The screen point whose texture coordinates are uv. */
  function UvToScreen(uv: Vec2): (p: ScreenPoint)
    ensures ScreenToUv(p) == uv
  {
    ScreenPoint(2.0 * uv.x - 1.0, 2.0 * uv.y - 1.0)
  }

  class SpotLight {
    /** The light's parameters (inner_angle, outer_angle, tilt_angle). */
    const params: ParamArray
    var cosInnerHalfAngle: real
    var cosOuterHalfAngle: real
    var rcpScreenHalfSize: real
    var frame: ScreenFrame

    constructor (params: ParamArray)
      ensures this.params == params
    {
      this.params := params;
    }

    /**
     * on_frame_begin: when the base light is ready, read the angles (degrees,
     * full cone angles) and keep the cosines of the half-angles, the inverse of
     * the screen's half size and the screen frame for the tilt angle.
     */
    method OnFrameBegin(baseReady: bool, parseReal: string -> real,
                        cos: real -> real, tan: real -> real, frameFor: real -> ScreenFrame)
      returns (ok: bool)
      modifies this
      ensures ok == baseReady
      ensures !ok ==> unchanged(this)
      ensures ok ==> cosInnerHalfAngle == cos(InnerHalfAngle(params, parseReal))
      ensures ok ==> cosOuterHalfAngle == cos(OuterHalfAngle(params, parseReal))
      ensures ok ==> rcpScreenHalfSize == Reciprocal(tan(OuterHalfAngle(params, parseReal)))
      ensures ok ==> frame == frameFor(TiltAngle(params, parseReal))
    {
      if !baseReady {
        return false;
      }
      var innerHalfAngle := DegToRad(GetReal(params, "inner_angle", DefaultInnerAngle, parseReal) / 2.0);
      var outerHalfAngle := DegToRad(GetReal(params, "outer_angle", DefaultOuterAngle, parseReal) / 2.0);
      var tiltAngle := DegToRad(GetReal(params, "tilt_angle", DefaultTiltAngle, parseReal));
      cosInnerHalfAngle := cos(innerHalfAngle);
      cosOuterHalfAngle := cos(outerHalfAngle);
      rcpScreenHalfSize := Reciprocal(tan(outerHalfAngle));
      frame := frameFor(tiltAngle);
      return true;
    }

    /** The cosine of the angle between a direction and the light's axis. */
    function CosTheta(outgoing: Vec3): real
      reads this
    {
      Dot(outgoing, frame.axis)
    }

    /** Whether a direction lies strictly inside the outer cone. */
    predicate InCone(outgoing: Vec3)
      reads this
    {
      CosTheta(outgoing) > cosOuterHalfAngle
    }

    /**
     * compute_exitance, for a direction strictly inside the outer cone: the
     * exitance times its multiplier, attenuated by the smoothstep from the outer
     * to the inner cosine in the penumbra.
     */
    function ComputeExitance(values: InputValues, cosTheta: real): (exitance: Spectrum)
      requires cosTheta > cosOuterHalfAngle
      reads this
    {
      var full := Scale(values.exitance, values.exitanceMultiplier);
      if cosTheta < cosInnerHalfAngle then
        Scale(full, Smoothstep(cosOuterHalfAngle, cosInnerHalfAngle, cosTheta))
      else full
    }

    /** evaluate, value only: the exitance inside the outer cone, black outside. */
    function Evaluate(values: InputValues, outgoing: Vec3): (value: Spectrum)
      reads this
    {
      var cosTheta := CosTheta(outgoing);
      if cosTheta > cosOuterHalfAngle then ComputeExitance(values, cosTheta)
      else Zero()
    }

    /**
     * evaluate, value and probability: the exitance and the cone-uniform density
     * inside the outer cone, black and zero outside.
     */
    function EvaluateWithProbability(values: InputValues, outgoing: Vec3): (r: (Spectrum, real))
      reads this
    {
      var cosTheta := CosTheta(outgoing);
      if cosTheta > cosOuterHalfAngle then
        (ComputeExitance(values, cosTheta), ConeUniformPdf(cosOuterHalfAngle))
      else (Zero(), 0.0)
    }

    /** evaluate_pdf: the cone-uniform density inside the outer cone, zero outside. */
    function EvaluatePdf(outgoing: Vec3): (pdf: real)
      reads this
      ensures pdf >= 0.0
      ensures pdf > 0.0 <==> InCone(outgoing) && cosOuterHalfAngle < 1.0
    {
      if CosTheta(outgoing) > cosOuterHalfAngle then ConeUniformPdf(cosOuterHalfAngle) else 0.0
    }

    /**
     * sample: the cone sampler draws `wo` in the light's local frame (its y
     * component is the cosine to the axis), the transform carries it to world
     * space, and the value is the exitance for that cosine.
     */
    function Sample(values: InputValues, wo: Vec3, toParent: Vec3 -> Vec3): (r: (Vec3, Spectrum, real))
      requires wo.y > cosOuterHalfAngle
      reads this
    {
      (toParent(wo), ComputeExitance(values, wo.y), ConeUniformPdf(cosOuterHalfAngle))
    }

    /** The screen point of a direction: its offset from the axis on the plane at unit distance, in half-screen units. */
    function ScreenCoordinates(outgoing: Vec3): ScreenPoint
      requires CosTheta(outgoing) != 0.0
      reads this
    {
      var d := Minus(Times(1.0 / CosTheta(outgoing), outgoing), frame.axis);
      ScreenPoint(Dot(d, frame.tangentU) * rcpScreenHalfSize, Dot(d, frame.normal) * rcpScreenHalfSize)
    }

    /** evaluate_inputs: the texture coordinates where the light's inputs are evaluated for a direction. */
    function EvaluateInputs(outgoing: Vec3): (uv: Vec2)
      requires CosTheta(outgoing) != 0.0
      reads this
    {
      ScreenToUv(ScreenCoordinates(outgoing))
    }
  }

  /** 1 / x, and 0 where the source's division would give an infinity. */
  function Reciprocal(x: real): (r: real)
    ensures x != 0.0 ==> r * x == 1.0
  {
    if x != 0.0 then 1.0 / x else 0.0
  }

  /** The inner half-angle in radians: half the inner_angle parameter (default 20 degrees). */
  function InnerHalfAngle(params: ParamArray, parseReal: string -> real): real {
    DegToRad(GetReal(params, "inner_angle", DefaultInnerAngle, parseReal) / 2.0)
  }

  /** The outer half-angle in radians: half the outer_angle parameter (default 30 degrees). */
  function OuterHalfAngle(params: ParamArray, parseReal: string -> real): real {
    DegToRad(GetReal(params, "outer_angle", DefaultOuterAngle, parseReal) / 2.0)
  }

  /** The tilt angle in radians (default 0 degrees). */
  function TiltAngle(params: ParamArray, parseReal: string -> real): real {
    DegToRad(GetReal(params, "tilt_angle", DefaultTiltAngle, parseReal))
  }
}
