/**
 * Properties of the image-based lighting estimators: which samples contribute,
 * how the sum is averaged, how the two techniques' weights fit together, and
 * the sign of the result.
 */
module ImageBasedLightingProperties {
  import opened Spectra
  import opened Scene
  import opened ImageBasedLighting
  import opened RealArith

  /** A BSDF draw the estimator skips: a glossy or specular sample, or an occluded ray. */
  predicate SkippedBsdfDraw(d: BsdfDraw) {
    d.sample.mode != Diffuse || d.occluded
  }

  /** An environment draw the estimator skips: an occluded ray, or a direction where the BSDF is undefined. */
  predicate SkippedEnvDraw(d: EnvDraw) {
    d.occluded || !d.bsdfDefined
  }

  /** A sum over draws that are all skipped is zero. */
  lemma {:induction false} SkippedBsdfDrawsSumToZero(draws: seq<BsdfDraw>, bsdfSampleCount: nat, envSampleCount: nat)
    requires forall i :: 0 <= i < |draws| ==> ValidBsdfDraw(draws[i])
    requires |draws| <= bsdfSampleCount
    requires forall i :: 0 <= i < |draws| ==> SkippedBsdfDraw(draws[i])
    ensures SumBsdf(draws, bsdfSampleCount, envSampleCount) == Zero()
  {
    if |draws| > 0 {
      var prefix := draws[..|draws| - 1];
      SkippedBsdfDrawsSumToZero(prefix, bsdfSampleCount, envSampleCount);
      AddZero(Zero());
    }
  }

  /** A sum over draws that are all skipped is zero. */
  lemma {:induction false} SkippedEnvDrawsSumToZero(draws: seq<EnvDraw>, bsdfSampleCount: nat, envSampleCount: nat)
    requires forall i :: 0 <= i < |draws| ==> ValidEnvDraw(draws[i])
    requires |draws| <= envSampleCount
    requires forall i :: 0 <= i < |draws| ==> SkippedEnvDraw(draws[i])
    ensures SumEnv(draws, bsdfSampleCount, envSampleCount) == Zero()
  {
    if |draws| > 0 {
      var prefix := draws[..|draws| - 1];
      SkippedEnvDrawsSumToZero(prefix, bsdfSampleCount, envSampleCount);
      AddZero(Zero());
    }
  }

  /**
   * If no BSDF sample is diffuse and unoccluded, BSDF sampling yields no light;
   * in particular a purely glossy or specular BSDF gets nothing from it.
   */
  lemma SkippedBsdfDrawsYieldZero(draws: seq<BsdfDraw>, envSampleCount: nat)
    requires forall i :: 0 <= i < |draws| ==> ValidBsdfDraw(draws[i])
    requires forall i :: 0 <= i < |draws| ==> SkippedBsdfDraw(draws[i])
    ensures BsdfSamplingEstimate(draws, envSampleCount) == Zero()
  {
    SkippedBsdfDrawsSumToZero(draws, |draws|, envSampleCount);
    if |draws| > 1 {
      ScaleZero(1.0 / |draws| as real);
    }
  }

  /** If every environment sample is occluded or falls where the BSDF is undefined, environment sampling yields no light. */
  lemma SkippedEnvDrawsYieldZero(draws: seq<EnvDraw>, bsdfSampleCount: nat)
    requires forall i :: 0 <= i < |draws| ==> ValidEnvDraw(draws[i])
    requires forall i :: 0 <= i < |draws| ==> SkippedEnvDraw(draws[i])
    ensures EnvSamplingEstimate(draws, bsdfSampleCount) == Zero()
  {
    SkippedEnvDrawsSumToZero(draws, bsdfSampleCount, |draws|);
    if |draws| > 1 {
      ScaleZero(1.0 / |draws| as real);
    }
  }

  /**
   * Averaging divides only for more than one sample: a count of 0 or 1 leaves
   * the sum as it is, and for n > 1 the average multiplied by n is the sum.
   */
  lemma AverageDividesAboveOne(sum: Spectrum, count: nat)
    ensures count <= 1 ==> Average(sum, count) == sum
    ensures count > 1 ==> forall i :: 0 <= i < Channels ==> Average(sum, count)[i] * count as real == sum[i]
  {
    if count > 1 {
      forall i | 0 <= i < Channels
        ensures Average(sum, count)[i] * count as real == sum[i]
      {
        DivideThenMultiply(sum[i], count as real);
      }
    }
  }

  /** No BSDF draw gives zero; one draw gives its contribution undivided. */
  lemma BsdfEstimateOfFewDraws(draws: seq<BsdfDraw>, envSampleCount: nat)
    requires forall i :: 0 <= i < |draws| ==> ValidBsdfDraw(draws[i])
    ensures |draws| == 0 ==> BsdfSamplingEstimate(draws, envSampleCount) == Zero()
    ensures |draws| == 1 ==> BsdfSamplingEstimate(draws, envSampleCount) == BsdfContribution(draws[0], 1, envSampleCount)
  {
    if |draws| == 1 {
      assert SumBsdf(draws[..0], 1, envSampleCount) == Zero();
      AddZero(BsdfContribution(draws[0], 1, envSampleCount));
      assert SumBsdf(draws, 1, envSampleCount) == BsdfContribution(draws[0], 1, envSampleCount);
    }
  }

  /** No environment draw gives zero; one draw gives its contribution undivided. */
  lemma EnvEstimateOfFewDraws(draws: seq<EnvDraw>, bsdfSampleCount: nat)
    requires forall i :: 0 <= i < |draws| ==> ValidEnvDraw(draws[i])
    ensures |draws| == 0 ==> EnvSamplingEstimate(draws, bsdfSampleCount) == Zero()
    ensures |draws| == 1 ==> EnvSamplingEstimate(draws, bsdfSampleCount) == EnvContribution(draws[0], bsdfSampleCount, 1)
  {
    if |draws| == 1 {
      assert SumEnv(draws[..0], bsdfSampleCount, 1) == Zero();
      AddZero(EnvContribution(draws[0], bsdfSampleCount, 1));
      assert SumEnv(draws, bsdfSampleCount, 1) == EnvContribution(draws[0], bsdfSampleCount, 1);
    }
  }

  /**
   * For a direction both techniques can produce (positive BSDF and environment
   * densities, at least one sample of each), the BSDF-sampling weight and the
   * environment-sampling weight add up to one: the two techniques use the same
   * two products with the arguments swapped.
   */
  lemma WeightsPartitionUnity(bsdfProb: real, envProb: real, bsdfSampleCount: nat, envSampleCount: nat)
    requires bsdfProb > 0.0 && envProb > 0.0 && bsdfSampleCount > 0 && envSampleCount > 0
    ensures BsdfMisWeight(Density(bsdfProb), bsdfSampleCount, envSampleCount, envProb)
          + EnvMisWeight(envProb, bsdfProb, bsdfSampleCount, envSampleCount) == 1.0
  {
    ProductPositive(bsdfSampleCount as real, bsdfProb);
    ProductPositive(envSampleCount as real, envProb);
    MisWeightsSumToOne(bsdfSampleCount as real * bsdfProb, envSampleCount as real * envProb);
  }

  /** Against a strategy with zero weight (no samples, or zero density) the power heuristic gives full weight. */
  lemma MisPower2Alone(a: real)
    requires a > 0.0
    ensures MisPower2(a, 0.0) == 1.0
  {
    SquarePositive(a);
    assert Square(0.0) == 0.0;
    CancelPositive(MisPower2(a, 0.0), Square(a));
  }

  /**
   * With no environment samples every diffuse BSDF sample has full weight, and
   * with no BSDF samples every environment sample has full weight.
   */
  lemma SoleTechniqueHasFullWeight(bsdfProb: real, envProb: real, bsdfSampleCount: nat, envSampleCount: nat)
    requires bsdfProb > 0.0 && envProb > 0.0
    ensures bsdfSampleCount > 0 ==> BsdfMisWeight(Density(bsdfProb), bsdfSampleCount, 0, envProb) == 1.0
    ensures envSampleCount > 0 ==> EnvMisWeight(envProb, bsdfProb, 0, envSampleCount) == 1.0
  {
    if bsdfSampleCount > 0 {
      ProductPositive(bsdfSampleCount as real, bsdfProb);
      assert 0 as real * envProb == 0.0;
      MisPower2Alone(bsdfSampleCount as real * bsdfProb);
    }
    if envSampleCount > 0 {
      ProductPositive(envSampleCount as real, envProb);
      assert 0 as real * bsdfProb == 0.0;
      MisPower2Alone(envSampleCount as real * envProb);
    }
  }

  /** The environment's light at a BSDF draw is non-negative and so is its transmission. */
  predicate NonNegativeBsdfDraw(d: BsdfDraw) {
    NonNegative(d.envValue) && d.transmission >= 0.0
  }

  /** The environment's light and the BSDF value at an environment draw are non-negative, and so is its transmission. */
  predicate NonNegativeEnvDraw(d: EnvDraw) {
    NonNegative(d.envValue) && NonNegative(d.bsdfValue) && d.transmission >= 0.0
  }

  lemma BsdfContributionNonNegative(d: BsdfDraw, bsdfSampleCount: nat, envSampleCount: nat)
    requires ValidBsdfDraw(d) && bsdfSampleCount > 0 && NonNegativeBsdfDraw(d)
    ensures NonNegative(BsdfContribution(d, bsdfSampleCount, envSampleCount))
  {
    if !SkippedBsdfDraw(d) {
      var w := BsdfMisWeight(d.sample.prob, bsdfSampleCount, envSampleCount, d.envProb);
      ProductNonNegative(d.transmission, w);
      QuotientNonNegative(d.transmission * w, d.sample.prob.value);
      ScaleNonNegative(d.envValue, BsdfFactor(d.transmission, w, d.sample.prob.value));
      MulNonNegative(Scale(d.envValue, BsdfFactor(d.transmission, w, d.sample.prob.value)), d.sample.value);
    }
  }

  lemma EnvContributionNonNegative(d: EnvDraw, bsdfSampleCount: nat, envSampleCount: nat)
    requires ValidEnvDraw(d) && envSampleCount > 0 && NonNegativeEnvDraw(d)
    ensures NonNegative(EnvContribution(d, bsdfSampleCount, envSampleCount))
  {
    if !SkippedEnvDraw(d) {
      var w := EnvMisWeight(d.envProb, d.bsdfProb, bsdfSampleCount, envSampleCount);
      QuotientNonNegative(d.transmission, d.envProb);
      ProductNonNegative(d.transmission / d.envProb, w);
      ScaleNonNegative(d.envValue, EnvFactor(d.transmission, d.envProb, w));
      MulNonNegative(Scale(d.envValue, EnvFactor(d.transmission, d.envProb, w)), d.bsdfValue);
    }
  }

  lemma AddNonNegative(a: Spectrum, b: Spectrum)
    requires NonNegative(a) && NonNegative(b)
    ensures NonNegative(Add(a, b))
  {
    forall i | 0 <= i < Channels
      ensures 0.0 <= Add(a, b)[i]
    {
      assert Add(a, b)[i] == a[i] + b[i];
    }
  }

  lemma {:induction false} SumBsdfNonNegative(draws: seq<BsdfDraw>, bsdfSampleCount: nat, envSampleCount: nat)
    requires forall i :: 0 <= i < |draws| ==> ValidBsdfDraw(draws[i]) && NonNegativeBsdfDraw(draws[i])
    requires |draws| <= bsdfSampleCount
    ensures NonNegative(SumBsdf(draws, bsdfSampleCount, envSampleCount))
  {
    if |draws| == 0 {
      assert forall i :: 0 <= i < Channels ==> Zero()[i] == 0.0;
    } else {
      var prefix := draws[..|draws| - 1];
      SumBsdfNonNegative(prefix, bsdfSampleCount, envSampleCount);
      BsdfContributionNonNegative(draws[|draws| - 1], bsdfSampleCount, envSampleCount);
      AddNonNegative(SumBsdf(prefix, bsdfSampleCount, envSampleCount), BsdfContribution(draws[|draws| - 1], bsdfSampleCount, envSampleCount));
    }
  }

  lemma {:induction false} SumEnvNonNegative(draws: seq<EnvDraw>, bsdfSampleCount: nat, envSampleCount: nat)
    requires forall i :: 0 <= i < |draws| ==> ValidEnvDraw(draws[i]) && NonNegativeEnvDraw(draws[i])
    requires |draws| <= envSampleCount
    ensures NonNegative(SumEnv(draws, bsdfSampleCount, envSampleCount))
  {
    if |draws| == 0 {
      assert forall i :: 0 <= i < Channels ==> Zero()[i] == 0.0;
    } else {
      var prefix := draws[..|draws| - 1];
      SumEnvNonNegative(prefix, bsdfSampleCount, envSampleCount);
      EnvContributionNonNegative(draws[|draws| - 1], bsdfSampleCount, envSampleCount);
      AddNonNegative(SumEnv(prefix, bsdfSampleCount, envSampleCount), EnvContribution(draws[|draws| - 1], bsdfSampleCount, envSampleCount));
    }
  }

  /**
   * With non-negative environment light, transmissions and BSDF values, image-based
   * lighting never produces negative radiance.
   */
  lemma ImageBasedLightingNonNegative(bsdfDraws: seq<BsdfDraw>, envDraws: seq<EnvDraw>)
    requires forall i :: 0 <= i < |bsdfDraws| ==> ValidBsdfDraw(bsdfDraws[i]) && NonNegativeBsdfDraw(bsdfDraws[i])
    requires forall i :: 0 <= i < |envDraws| ==> ValidEnvDraw(envDraws[i]) && NonNegativeEnvDraw(envDraws[i])
    ensures NonNegative(Add(BsdfSamplingEstimate(bsdfDraws, |envDraws|), EnvSamplingEstimate(envDraws, |bsdfDraws|)))
  {
    SumBsdfNonNegative(bsdfDraws, |bsdfDraws|, |envDraws|);
    SumEnvNonNegative(envDraws, |bsdfDraws|, |envDraws|);
    if |bsdfDraws| > 1 {
      QuotientNonNegative(1.0, |bsdfDraws| as real);
      ScaleNonNegative(SumBsdf(bsdfDraws, |bsdfDraws|, |envDraws|), 1.0 / |bsdfDraws| as real);
    }
    if |envDraws| > 1 {
      QuotientNonNegative(1.0, |envDraws| as real);
      ScaleNonNegative(SumEnv(envDraws, |bsdfDraws|, |envDraws|), 1.0 / |envDraws| as real);
    }
    AddNonNegative(BsdfSamplingEstimate(bsdfDraws, |envDraws|), EnvSamplingEstimate(envDraws, |bsdfDraws|));
  }
}
