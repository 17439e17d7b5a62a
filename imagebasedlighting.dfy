/**
 * Image-based lighting at a surface point: the environment's light reaching
 * the point, estimated once by sampling the BSDF and once by sampling the
 * environment, each sample weighted by the power heuristic of multiple
 * importance sampling, and the two estimates added.
 */
module ImageBasedLighting {
  import opened Spectra
  import opened Scene
  import opened RealArith

  /**
   * The power heuristic with exponent 2 (foundation's mis_power2): the weight
   * a² / (a² + b²) of a sample drawn by the strategy whose (count-scaled) density
   * is a, against the other strategy's b.
   */
  function MisPower2(a: real, b: real): (w: real)
    requires a > 0.0 && b >= 0.0
    ensures 0.0 < w <= 1.0
    ensures w * (Square(a) + Square(b)) == Square(a)
  {
    SquarePositive(a);
    SquareNonNegative(b);
    Ratio(Square(a), Square(a) + Square(b))
  }

  /** For a direction both strategies can produce, the two weights add up to one. */
  lemma MisWeightsSumToOne(a: real, b: real)
    requires a > 0.0 && b > 0.0
    ensures MisPower2(a, b) + MisPower2(b, a) == 1.0
  {
    SquarePositive(a);
    SquarePositive(b);
    var d := Square(a) + Square(b);
    var w1 := MisPower2(a, b);
    var w2 := MisPower2(b, a);
    assert w1 * d == Square(a);
    assert w2 * d == Square(b);
    assert (w1 + w2) * d == w1 * d + w2 * d;
    CancelPositive(w1 + w2, d);
  }

  /**
   * What one BSDF-sampling iteration meets: the BSDF sample, whether the ray
   * toward it is occluded and its transmission, and the environment's value and
   * density in that direction.
   */
  datatype BsdfDraw = BsdfDraw(sample: BsdfSample, occluded: bool, transmission: real, envValue: Spectrum, envProb: real)

  /**
   * A BSDF sample is valid, a diffuse one is never a Dirac delta, and the
   * environment's density is never negative.
   */
  predicate ValidBsdfDraw(d: BsdfDraw) {
    ValidBsdfSample(d.sample) && (d.sample.mode == Diffuse ==> d.sample.prob.Density?) && d.envProb >= 0.0
  }

  /**
   * What one environment-sampling iteration meets: the sampled environment value
   * and density, whether the ray toward it is occluded and its transmission,
   * and whether the BSDF is defined there, with its value and density.
   */
  datatype EnvDraw = EnvDraw(envValue: Spectrum, envProb: real, occluded: bool, transmission: real,
                             bsdfDefined: bool, bsdfValue: Spectrum, bsdfProb: real)

  /** A sampled environment direction has a positive density; the BSDF's density is never negative. */
  predicate ValidEnvDraw(d: EnvDraw) {
    d.envProb > 0.0 && d.bsdfProb >= 0.0
  }

  /** The MIS weight of a BSDF sample: 1 for a Dirac delta, else the power heuristic. */
  function BsdfMisWeight(prob: Prob, bsdfSampleCount: nat, envSampleCount: nat, envProb: real): (w: real)
    requires prob.Density? ==> prob.value > 0.0 && bsdfSampleCount > 0 && envProb >= 0.0
    ensures 0.0 < w <= 1.0
    ensures prob.DiracDelta? ==> w == 1.0
  {
    match prob
    case DiracDelta => 1.0
    case Density(p) =>
      ProductPositive(bsdfSampleCount as real, p);
      ProductNonNegative(envSampleCount as real, envProb);
      MisPower2(bsdfSampleCount as real * p, envSampleCount as real * envProb)
  }

  /** The MIS weight of an environment sample. */
  function EnvMisWeight(envProb: real, bsdfProb: real, bsdfSampleCount: nat, envSampleCount: nat): (w: real)
    requires envProb > 0.0 && bsdfProb >= 0.0 && envSampleCount > 0
    ensures 0.0 < w <= 1.0
  {
    ProductPositive(envSampleCount as real, envProb);
    ProductNonNegative(bsdfSampleCount as real, bsdfProb);
    MisPower2(envSampleCount as real * envProb, bsdfSampleCount as real * bsdfProb)
  }

  /**
   * One BSDF sample's contribution: nothing for a glossy or specular sample
   * (the parent handles those) or an occluded ray, else the environment's value
   * times transmission and weight over the density, times the BSDF value.
   */
  function BsdfContribution(d: BsdfDraw, bsdfSampleCount: nat, envSampleCount: nat): Spectrum
    requires ValidBsdfDraw(d) && bsdfSampleCount > 0
  {
    if d.sample.mode != Diffuse || d.occluded then Zero()
    else
      var w := BsdfMisWeight(d.sample.prob, bsdfSampleCount, envSampleCount, d.envProb);
      Mul(Scale(d.envValue, BsdfFactor(d.transmission, w, d.sample.prob.value)), d.sample.value)
  }

  /** The scalar applied to the environment's value: transmission times weight over density. */
  function BsdfFactor(transmission: real, misWeight: real, bsdfProb: real): real
    requires bsdfProb > 0.0
  {
    transmission * misWeight / bsdfProb
  }

  /**
   * One environment sample's contribution: nothing for an occluded ray or where
   * the BSDF is undefined, else the environment's value times transmission over
   * the density times the weight, times the BSDF value.
   */
  function EnvContribution(d: EnvDraw, bsdfSampleCount: nat, envSampleCount: nat): Spectrum
    requires ValidEnvDraw(d) && envSampleCount > 0
  {
    if d.occluded || !d.bsdfDefined then Zero()
    else
      var w := EnvMisWeight(d.envProb, d.bsdfProb, bsdfSampleCount, envSampleCount);
      Mul(Scale(d.envValue, EnvFactor(d.transmission, d.envProb, w)), d.bsdfValue)
  }

  /** The scalar applied to the environment's value: transmission over density, times weight. */
  function EnvFactor(transmission: real, envProb: real, misWeight: real): real
    requires envProb > 0.0
  {
    transmission / envProb * misWeight
  }

  /** The sum of the contributions of a prefix of the BSDF samples. */
  function SumBsdf(draws: seq<BsdfDraw>, bsdfSampleCount: nat, envSampleCount: nat): Spectrum
    requires forall i :: 0 <= i < |draws| ==> ValidBsdfDraw(draws[i])
    requires |draws| <= bsdfSampleCount
  {
    if |draws| == 0 then Zero()
    else Add(SumBsdf(draws[..|draws| - 1], bsdfSampleCount, envSampleCount),
             BsdfContribution(draws[|draws| - 1], bsdfSampleCount, envSampleCount))
  }

  /** The sum of the contributions of a prefix of the environment samples. */
  function SumEnv(draws: seq<EnvDraw>, bsdfSampleCount: nat, envSampleCount: nat): Spectrum
    requires forall i :: 0 <= i < |draws| ==> ValidEnvDraw(draws[i])
    requires |draws| <= envSampleCount
  {
    if |draws| == 0 then Zero()
    else Add(SumEnv(draws[..|draws| - 1], bsdfSampleCount, envSampleCount),
             EnvContribution(draws[|draws| - 1], bsdfSampleCount, envSampleCount))
  }

  /** The mean over `count` samples; a sum over zero or one sample is left as it is. */
  function Average(sum: Spectrum, count: nat): Spectrum {
    if count > 1 then Scale(sum, 1.0 / count as real) else sum
  }

  /** The BSDF-sampling estimate with one draw per BSDF sample. */
  function BsdfSamplingEstimate(draws: seq<BsdfDraw>, envSampleCount: nat): Spectrum
    requires forall i :: 0 <= i < |draws| ==> ValidBsdfDraw(draws[i])
  {
    Average(SumBsdf(draws, |draws|, envSampleCount), |draws|)
  }

  /** The environment-sampling estimate with one draw per environment sample. */
  function EnvSamplingEstimate(draws: seq<EnvDraw>, bsdfSampleCount: nat): Spectrum
    requires forall i :: 0 <= i < |draws| ==> ValidEnvDraw(draws[i])
  {
    Average(SumEnv(draws, bsdfSampleCount, |draws|), |draws|)
  }

  /** Extending the prefix by one draw adds that draw's contribution. */
  lemma SumBsdfStep(draws: seq<BsdfDraw>, i: nat, bsdfSampleCount: nat, envSampleCount: nat)
    requires forall j :: 0 <= j < |draws| ==> ValidBsdfDraw(draws[j])
    requires i < |draws| <= bsdfSampleCount
    ensures SumBsdf(draws[..i + 1], bsdfSampleCount, envSampleCount)
         == Add(SumBsdf(draws[..i], bsdfSampleCount, envSampleCount), BsdfContribution(draws[i], bsdfSampleCount, envSampleCount))
  {
    assert draws[..i + 1][..i] == draws[..i];
  }

  /** compute_ibl_bsdf_sampling: one iteration per draw. */
  method ComputeIblBsdfSampling(draws: seq<BsdfDraw>, envSampleCount: nat) returns (radiance: Spectrum)
    requires forall i :: 0 <= i < |draws| ==> ValidBsdfDraw(draws[i])
    ensures radiance == BsdfSamplingEstimate(draws, envSampleCount)
  {
    var bsdfSampleCount := |draws|;
    radiance := Zero();
    for i := 0 to bsdfSampleCount
      invariant radiance == SumBsdf(draws[..i], bsdfSampleCount, envSampleCount)
    {
      SumBsdfStep(draws, i, bsdfSampleCount, envSampleCount);
      var d := draws[i];
      var sample := d.sample;
      ghost var contribution := BsdfContribution(d, bsdfSampleCount, envSampleCount);
      if sample.mode != Diffuse {
        AddZero(radiance);
        continue;
      }
      var bsdfProb := sample.prob.value;
      if d.occluded {
        AddZero(radiance);
        continue;
      }
      var misWeight := BsdfMisWeight(sample.prob, bsdfSampleCount, envSampleCount, d.envProb);
      var factor := BsdfFactor(d.transmission, misWeight, bsdfProb);
      var envValue := Scale(d.envValue, factor);
      envValue := Mul(envValue, sample.value);
      assert envValue == contribution;
      radiance := Add(radiance, envValue);
    }
    assert draws[..bsdfSampleCount] == draws;
    if bsdfSampleCount > 1 {
      radiance := Scale(radiance, 1.0 / bsdfSampleCount as real);
    }
  }

  /** Extending the prefix by one draw adds that draw's contribution. */
  lemma SumEnvStep(draws: seq<EnvDraw>, i: nat, bsdfSampleCount: nat, envSampleCount: nat)
    requires forall j :: 0 <= j < |draws| ==> ValidEnvDraw(draws[j])
    requires i < |draws| <= envSampleCount
    ensures SumEnv(draws[..i + 1], bsdfSampleCount, envSampleCount)
         == Add(SumEnv(draws[..i], bsdfSampleCount, envSampleCount), EnvContribution(draws[i], bsdfSampleCount, envSampleCount))
  {
    assert draws[..i + 1][..i] == draws[..i];
  }

  /** compute_ibl_environment_sampling: one iteration per draw. */
  method ComputeIblEnvironmentSampling(draws: seq<EnvDraw>, bsdfSampleCount: nat) returns (radiance: Spectrum)
    requires forall i :: 0 <= i < |draws| ==> ValidEnvDraw(draws[i])
    ensures radiance == EnvSamplingEstimate(draws, bsdfSampleCount)
  {
    var envSampleCount := |draws|;
    radiance := Zero();
    for i := 0 to envSampleCount
      invariant radiance == SumEnv(draws[..i], bsdfSampleCount, envSampleCount)
    {
      SumEnvStep(draws, i, bsdfSampleCount, envSampleCount);
      var d := draws[i];
      ghost var contribution := EnvContribution(d, bsdfSampleCount, envSampleCount);
      if d.occluded {
        AddZero(radiance);
        continue;
      }
      if !d.bsdfDefined {
        AddZero(radiance);
        continue;
      }
      var misWeight := EnvMisWeight(d.envProb, d.bsdfProb, bsdfSampleCount, envSampleCount);
      var factor := EnvFactor(d.transmission, d.envProb, misWeight);
      var envValue := Scale(d.envValue, factor);
      envValue := Mul(envValue, d.bsdfValue);
      assert envValue == contribution;
      radiance := Add(radiance, envValue);
    }
    assert draws[..envSampleCount] == draws;
    if envSampleCount > 1 {
      radiance := Scale(radiance, 1.0 / envSampleCount as real);
    }
  }

  /** compute_image_based_lighting: the sum of both estimates. */
  method ComputeImageBasedLighting(bsdfDraws: seq<BsdfDraw>, envDraws: seq<EnvDraw>) returns (radiance: Spectrum)
    requires forall i :: 0 <= i < |bsdfDraws| ==> ValidBsdfDraw(bsdfDraws[i])
    requires forall i :: 0 <= i < |envDraws| ==> ValidEnvDraw(envDraws[i])
    ensures radiance == Add(BsdfSamplingEstimate(bsdfDraws, |envDraws|), EnvSamplingEstimate(envDraws, |bsdfDraws|))
  {
    radiance := ComputeIblBsdfSampling(bsdfDraws, |envDraws|);
    var radianceEnvSampling := ComputeIblEnvironmentSampling(envDraws, |bsdfDraws|);
    radiance := Add(radiance, radianceEnvSampling);
  }
}
