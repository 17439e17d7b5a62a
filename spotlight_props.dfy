/**
 * Properties of the spot light: the penumbra attenuates the exitance, the
 * evaluation entry points agree with each other and with sampling, the light
 * is dark outside its outer cone, and the angle parameters default as documented.
 */
module SpotLightProperties {
  import opened Spectra
  import opened Geometry
  import opened Params
  import opened RealArith
  import opened SpotLights

  /** Outside the outer cone the light is dark and has zero density, through every entry point. */
  lemma OutsideConeIsDark(light: SpotLight, values: InputValues, outgoing: Vec3)
    requires !light.InCone(outgoing)
    ensures light.Evaluate(values, outgoing) == Zero()
    ensures light.EvaluateWithProbability(values, outgoing) == (Zero(), 0.0)
    ensures light.EvaluatePdf(outgoing) == 0.0
  {
  }

  /**
   * The two evaluate overloads give the same value for every direction, and the
   * probability the second returns is evaluate_pdf's.
   */
  lemma EvaluateOverloadsAgree(light: SpotLight, values: InputValues, outgoing: Vec3)
    ensures light.EvaluateWithProbability(values, outgoing).0 == light.Evaluate(values, outgoing)
    ensures light.EvaluateWithProbability(values, outgoing).1 == light.EvaluatePdf(outgoing)
  {
  }

  /**
   * sample reports the cone-uniform density of the outer cone whatever the
   * sample; for a sample the transform carries to a world direction at the same
   * cosine to the axis, its value and density are what evaluate gives there.
   */
  lemma SampleMatchesEvaluate(light: SpotLight, values: InputValues, wo: Vec3, toParent: Vec3 -> Vec3)
    requires wo.y > light.cosOuterHalfAngle
    ensures light.Sample(values, wo, toParent).2 == ConeUniformPdf(light.cosOuterHalfAngle)
    ensures light.CosTheta(toParent(wo)) == wo.y ==>
      light.Sample(values, wo, toParent).1 == light.Evaluate(values, toParent(wo))
      && light.Sample(values, wo, toParent).2 == light.EvaluatePdf(toParent(wo))
  {
  }

  /** Inside the inner cone the exitance is the full exitance times its multiplier. */
  lemma FullExitanceInsideInnerCone(light: SpotLight, values: InputValues, cosTheta: real)
    requires cosTheta > light.cosOuterHalfAngle && cosTheta >= light.cosInnerHalfAngle
    ensures light.ComputeExitance(values, cosTheta) == Scale(values.exitance, values.exitanceMultiplier)
  {
  }

  /**
   * In the penumbra (between the outer and the inner cone) a non-negative
   * exitance is attenuated: every band lies between zero and the full value.
   */
  lemma PenumbraAttenuates(light: SpotLight, values: InputValues, cosTheta: real)
    requires light.cosOuterHalfAngle < cosTheta < light.cosInnerHalfAngle
    requires NonNegative(values.exitance) && values.exitanceMultiplier >= 0.0
    ensures forall i :: 0 <= i < Channels ==>
      0.0 <= light.ComputeExitance(values, cosTheta)[i] <= Scale(values.exitance, values.exitanceMultiplier)[i]
  {
    var full := Scale(values.exitance, values.exitanceMultiplier);
    var k := Smoothstep(light.cosOuterHalfAngle, light.cosInnerHalfAngle, cosTheta);
    forall i | 0 <= i < Channels
      ensures 0.0 <= light.ComputeExitance(values, cosTheta)[i] <= full[i]
    {
      ProductNonNegative(values.exitance[i], values.exitanceMultiplier);
      assert full[i] >= 0.0;
      assert light.ComputeExitance(values, cosTheta)[i] == full[i] * k;
      ProductNonNegative(full[i], k);
      ProductNonNegative(full[i], 1.0 - k);
    }
  }

  /**
   * Without angle parameters the half-angles are 10 and 15 degrees (half of the
   * default 20 and 30) and the tilt is 0.
   */
  lemma DefaultAngles(params: ParamArray, parseReal: string -> real)
    requires "inner_angle" !in params && "outer_angle" !in params && "tilt_angle" !in params
    ensures InnerHalfAngle(params, parseReal) == DegToRad(10.0)
    ensures OuterHalfAngle(params, parseReal) == DegToRad(15.0)
    ensures TiltAngle(params, parseReal) == 0.0
  {
  }

  /** The half-angles are half the configured cone angles, converted to radians. */
  lemma HalfAnglesAreHalved(params: ParamArray, parseReal: string -> real)
    ensures InnerHalfAngle(params, parseReal) * 360.0 == GetReal(params, "inner_angle", DefaultInnerAngle, parseReal) * Pi
    ensures OuterHalfAngle(params, parseReal) * 360.0 == GetReal(params, "outer_angle", DefaultOuterAngle, parseReal) * Pi
  {
  }

  /** Screen coordinates and texture coordinates are in one-to-one correspondence. */
  lemma UvRoundTrip(p: ScreenPoint, uv: Vec2)
    ensures UvToScreen(ScreenToUv(p)) == p
    ensures ScreenToUv(UvToScreen(uv)) == uv
  {
  }

  /**
   * A direction along the axis (a unit vector) lands at the centre of the
   * screen, whose texture coordinates are (0.5, 0.5).
   */
  lemma AxisMapsToCentre(light: SpotLight, k: real)
    requires k != 0.0
    requires Dot(light.frame.axis, light.frame.axis) == 1.0
    ensures light.CosTheta(Times(k, light.frame.axis)) == k
    ensures light.EvaluateInputs(Times(k, light.frame.axis)) == Vec2(0.5, 0.5)
  {
    var a := light.frame.axis;
    var outgoing := Times(k, a);
    calc {
      Dot(outgoing, a);
      (k * a.x) * a.x + (k * a.y) * a.y + (k * a.z) * a.z;
      k * (a.x * a.x + a.y * a.y + a.z * a.z);
      k * Dot(a, a);
    }
    var r := 1.0 / k;
    assert r * k == 1.0;
    assert r * (k * a.x) == (r * k) * a.x;
    assert r * (k * a.y) == (r * k) * a.y;
    assert r * (k * a.z) == (r * k) * a.z;
    assert Minus(Times(r, outgoing), a) == Vec3(0.0, 0.0, 0.0);
  }
}
