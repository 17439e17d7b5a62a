# appleseed light transport core, modelled in Dafny

This project models the core of appleseed's light transport, a physically based renderer:

- **Generic path tracer** (`PathTracer`). It follows a ray from surface to surface. At each vertex it:
  - passes through alpha-masked surfaces with a cutoff ray;
  - tells a visitor about the vertex;
  - samples the BSDF and rejects scattering modes outside its mask;
  - updates the path throughput;
  - applies Russian roulette from the minimum path length on;
  - stops at the user bounce limit and at the hard limit of 10000 bounces.
  
  A ray that escapes is reported to the visitor as an environment hit.
- **Light tracing sample generator.** It draws one light sample and samples its EDF. It connects the light vertex to the camera. A `PathVisitor` then traces the light path and turns every vertex the camera sees into an image sample.
- **Image-based lighting.** It estimates the light a point receives from the environment with two estimators, one sampling the BSDF and one sampling the environment. Both are weighted by the power-2 multiple-importance-sampling heuristic and summed.
- **Spot light.** It has an inner cone at full exitance, a smoothstep penumbra out to the outer cone, and darkness outside it. Directions are sampled uniformly in the outer cone. It maps directions to texture coordinates on the light's screen.
- **Material frame lifecycle.** A material caches the entities bound to it. At frame begin it builds a bump-mapping or normal-mapping modifier from a texture bound as displacement map. At frame end it clears everything.
- **Normal-mapping modifier.** It turns a texel into a world-space normal.

## How the model is built

**Spectra.** Spectra have 31 bands (`Spectra.Spectrum`) and are combined band by band.

**The scene.** The intersector, the BSDFs, the environment and the random number generator are not modelled. Everything the tracer would obtain from them becomes a recorded *script*, `seq<PathTracing.Step>`. Each step holds:

- the shading point the next ray meets;
- the alpha and BSDF samples drawn there;
- the visitor's reply.

A well-formed script ends in a point that misses all geometry, because a scene is finite. The walk over it (`PathTracing.Walk`, `PathTracing.Run`) is the specification of the tracer's loop. `PathTracing.PathTracer.Trace` is the imperative loop proved equal to it.

**Visitor callbacks.** The tracer's calls to its visitor become a log of `PathTracing.Event`s. The light tracer's `PathVisitor` class receives that log callback by callback.

**Image-based lighting.** The estimators are imperative loops over recorded draws. Each is proved equal to a recursive sum, and the properties are proved about the sums: multiple-importance weights that partition unity, non-negativity, and skipped draws adding nothing.

**Spot light and material.** The spot light and the material are classes whose state changes at frame begin. Cosine, tangent, the light's transform and the cone sampler are parameters of the operations. So are the texture lookup, the shading basis and normalisation of the normal-mapping modifier. Parameter values arrive as strings (`Params.ParamArray`), and their numeric parsers are parameters too.

**Foundation helpers.** Four helpers of appleseed's foundation library are called by the modelled code but are not part of this model's sources. The model gives each one a concrete definition:

- `pass_rr` (`PathTracing.PassRussianRoulette`): the sample is below the probability;
- `mis_power2` (`ImageBasedLighting.MisPower2`): a² / (a² + b²);
- `smoothstep` (`SpotLights.Smoothstep`): the Hermite polynomial t²(3 − 2t) between the edges, clamped to 0 and 1 outside;
- `sample_cone_uniform_pdf` (`SpotLights.ConeUniformPdf`): one over the cone's solid angle.

The facts that rest on these definitions hold only as far as the definitions match the library: `ImageBasedLighting.MisWeightsSumToOne`, `ImageBasedLightingProperties.WeightsPartitionUnity`, `ImageBasedLightingProperties.MisPower2Alone`, the range of `SpotLights.Smoothstep`, `SpotLightProperties.PenumbraAttenuates`, the density of `SpotLights.ConeUniformPdf` and `PathTracingProperties.RouletteKillCondition`.

**Files and modules**

- `common.dfy`: `Optional`, `Spectra`, `RealArith` (squares, ratios and sign lemmas for real arithmetic), `Geometry` and `Params`.
- `scene.dfy`: `Scene` (scattering modes, BSDF samples, shading points).
- `pathtracer.dfy`: `PathTracing`.
- `pathtracer_props.dfy`: `PathTracingProperties`.
- `lighttracing.dfy`: `LightTracing`.
- `lighttracing_props.dfy`: `LightTracingProperties`.
- `imagebasedlighting.dfy`: `ImageBasedLighting`.
- `imagebasedlighting_props.dfy`: `ImageBasedLightingProperties`.
- `spotlight.dfy`: `SpotLights`.
- `spotlight_props.dfy`: `SpotLightProperties`.
- `material.dfy`: `Materials`, `MaterialProperties`.
- `normalmapping.dfy`: `NormalMapping`, `NormalMappingProperties`.

**Where the model follows the code rather than the design.** The light tracer builds its `PathTracer` with two arguments, the minimum path length only (src/appleseed/renderer/kernel/rendering/lighttracing/lighttracingsamplegenerator.cpp:428-430). The constructor takes three (src/appleseed/renderer/kernel/lighting/pathtracer.h:95-103). The model gives the missing bounce limit the value 0, which means no limit. Its `visit_vertex` returns nothing, while the tracer tests the result. The model's light-tracing visitor always lets the walk continue.

## Model

| member | source | states |
|---|---|---|
| PathTracing.PathTracer.constructor | src/appleseed/renderer/kernel/lighting/pathtracer.h:95-103 | the tracer keeps the visitor's mode mask, the adjoint flag, the Russian-roulette minimum path length and the user bounce limit it is given |
| PathTracing.PathTracer.Trace | src/appleseed/renderer/kernel/lighting/pathtracer.h:124-314 | the loop's returned path length and the callbacks it makes are exactly those of the walk specification `Run` over the scene script |
| PathTracing.PathTracer.TraceRay | src/appleseed/renderer/kernel/lighting/pathtracer.h:105-122 | tracing from a ray is tracing from the point the ray meets: same path length and callbacks as `Run` |
| PathTracing.Transfer | src/appleseed/renderer/kernel/lighting/pathtracer.h:253-257 | the BSDF value the throughput is multiplied by is non-negative, is the sampled value for a Dirac delta, and times the density gives back the sampled value otherwise |
| PathTracing.Transition | src/appleseed/renderer/kernel/lighting/pathtracer.h:145-155 | a ray that misses everything always ends the walk |
| PathTracing.PathTracer.ShadeVertex | src/appleseed/renderer/kernel/lighting/pathtracer.h:140-311 | one pass of trace's loop body at a shading point makes the same decision (stop with its reason, pass through, or scatter), with the same new state and callbacks, as the pass specification `Transition` |
| PathTracing.WalkStep | src/appleseed/renderer/kernel/lighting/pathtracer.h:124-314 | the walk from position k is the pass's stop outcome, or the walk from k + 1 after a pass-through or a scatter, and a pass that goes on is never the last step of a script |
| PathTracingProperties.TransitionEnvironmentEvents | src/appleseed/renderer/kernel/lighting/pathtracer.h:145-155 | the environment callback is made only on a miss, and then as the pass's only callback |
| PathTracing.CountsDistribute | src/appleseed/renderer/kernel/lighting/pathtracer.h:124-314 | the number of scattered rays, visited vertices and cutoff rays of two logs one after the other is their sum |
| PathTracingProperties.TransitionCounts | src/appleseed/renderer/kernel/lighting/pathtracer.h:140-311 | one iteration that ends the path leaves the length as it was and scatters nothing; one that continues adds exactly one scattered ray and one vertex visit to the log and increments the length by one, and only below both bounce limits |
| PathTracingProperties.WalkLengths | src/appleseed/renderer/kernel/lighting/pathtracer.h:137-313 | from any point of the walk the path length stays one more than the number of scattered rays, at most the number of vertices visited, at most 10000, and at most the user limit when there is one |
| PathTracingProperties.PathLengthBounds | src/appleseed/renderer/kernel/lighting/pathtracer.h:137-313 | the returned path length is at least 1, at most 10000, at most the user bounce limit when it is positive, one more than the scattered rays, and at least the number of visitor calls |
| PathTracingProperties.SingleBounceLimit | src/appleseed/renderer/kernel/lighting/pathtracer.h:278-280 | with a user bounce limit of 1 the path has length 1, scatters nothing and visits at most one vertex |
| PathTracingProperties.RetryCondition | src/appleseed/renderer/kernel/lighting/pathtracer.h:176-204 | a cutoff ray is traced if and only if the point has a material with a surface shader, alpha below 1 and an alpha sample at or above the alpha |
| PathTracingProperties.TransparentAlwaysRetries | src/appleseed/renderer/kernel/lighting/pathtracer.h:176-204 | a shaded surface of alpha 0 is always passed through |
| PathTracingProperties.OpaqueNeverRetries | src/appleseed/renderer/kernel/lighting/pathtracer.h:176-204 | a surface of alpha 1 is never passed through |
| PathTracingProperties.NoCutoffInOpaqueScene | src/appleseed/renderer/kernel/lighting/pathtracer.h:176-204 | a scene of opaque surfaces never produces a cutoff ray |
| PathTracingProperties.UnboundPointEndsSilently | src/appleseed/renderer/kernel/lighting/pathtracer.h:157-165 | a point without material, without surface shader, or without BSDF and not passed through ends the path with no callback and no state change |
| PathTracingProperties.RouletteReweighting | src/appleseed/renderer/kernel/lighting/pathtracer.h:253-276 | when roulette applies and the path survives, the survival probability is in (0, 1], the sample is below it, and the throughput is the unweighted product divided by it; without roulette the throughput is the plain product |
| PathTracingProperties.ContinuedThroughput | src/appleseed/renderer/kernel/lighting/pathtracer.h:256-276 | a pass that goes on hands on the throughput times the BSDF value, divided by the survival probability exactly when roulette applies, and then the roulette sample fell below that probability |
| PathTracingProperties.RouletteKillCondition | src/appleseed/renderer/kernel/lighting/pathtracer.h:259-276 | once the path reaches the roulette, it is killed exactly when roulette applies and the sample is at or above min(max band of the BSDF value, 1) |
| PathTracing.PassRussianRoulette | src/appleseed/renderer/kernel/lighting/pathtracer.h:271 | foundation's pass_rr; `PathTracingProperties.RouletteKillCondition` and `RouletteReweighting` state how the tracer uses it |
| PathTracingProperties.EarlyStopKeepsThroughput | src/appleseed/renderer/kernel/lighting/pathtracer.h:221-251 | a path the visitor stops, or whose sampled mode is masked out, keeps its throughput and length |
| PathTracingProperties.TransitionShape | src/appleseed/renderer/kernel/lighting/pathtracer.h:221-257 | a continuing iteration logs the vertex visit then the scattered ray, and keeps a non-negative throughput non-negative; a stopping one logs at most one visit |
| PathTracingProperties.TransitionKeepsAgreement | src/appleseed/renderer/kernel/lighting/pathtracer.h:136-257 | one iteration keeps the tracer's mode, probability and throughput in agreement with its log, and every callback sees the previous bounce's mode and probability |
| PathTracingProperties.CallbacksSeePreviousBounce | src/appleseed/renderer/kernel/lighting/pathtracer.h:136-257 | over a whole walk every vertex and environment callback receives the mode and probability of the last scattered ray (specular Dirac delta before the first bounce) |
| PathTracingProperties.EnvironmentVisitedLast | src/appleseed/renderer/kernel/lighting/pathtracer.h:145-155 | the environment callback happens at most once, as the last event, exactly when the walk ends because a ray escaped |
| LightTracing.FluxToRadiance | src/appleseed/renderer/kernel/rendering/lighttracing/lighttracingsamplegenerator.cpp:292-297 | the flux-to-radiance factor times cos⁴θ is the focal length squared over the film area, and is non-negative |
| LightTracing.GeometricTerm | src/appleseed/renderer/kernel/rendering/lighttracing/lighttracingsamplegenerator.cpp:299-303 | the geometric term is positive and equals cos θ over the squared distance |
| LightTracing.ConnectionSamples | src/appleseed/renderer/kernel/rendering/lighttracing/lighttracingsamplegenerator.cpp:168-228 | a vertex adds one sample if and only if it projects into [0,1)² and is unoccluded; that sample sits at the projection with alpha 1 |
| LightTracing.RcpFilmArea | src/appleseed/renderer/kernel/rendering/lighttracing/lighttracingsamplegenerator.cpp:155-157 | the reciprocal film area is positive and times the film area is 1 |
| LightTracing.SampleVector.PushBack | src/appleseed/renderer/kernel/rendering/lighttracing/lighttracingsamplegenerator.cpp:226 | appends exactly one sample to the caller's vector |
| LightTracing.PathVisitor.constructor | src/appleseed/renderer/kernel/rendering/lighttracing/lighttracingsamplegenerator.cpp:136-161 | the visitor starts with no samples of its own, the initial particle weight, the camera's focal length and reciprocal film area |
| LightTracing.PathVisitor.GetSampleCount | src/appleseed/renderer/kernel/rendering/lighttracing/lighttracingsamplegenerator.cpp:163-166 | the count is the number of samples this visitor appended to the vector |
| LightTracing.PathVisitor.Add | src/appleseed/renderer/kernel/rendering/lighttracing/lighttracingsamplegenerator.cpp:219-227 | appending a sample grows the vector by it and the count by one, leaving the weight |
| LightTracing.PathVisitor.VisitLightVertex | src/appleseed/renderer/kernel/rendering/lighttracing/lighttracingsamplegenerator.cpp:168-228 | the vector grows by exactly the light vertex's connection samples, weighted by the initial weight |
| LightTracing.PathVisitor.VisitVertex | src/appleseed/renderer/kernel/rendering/lighttracing/lighttracingsamplegenerator.cpp:230-322 | as written: the new weight and vector are those of `VisitVertexSpec`, the weight multiplied by the received throughput |
| LightTracing.PathVisitor.VisitVertexCorrected | src/appleseed/renderer/kernel/rendering/lighttracing/lighttracingsamplegenerator.cpp:230-322 | corrected callback: the weight stays the initial one and the vector grows by the connection of initial weight × throughput × BSDF value |
| LightTracing.PathVisitor.Receive | src/appleseed/renderer/kernel/rendering/lighttracing/lighttracingsamplegenerator.cpp:230-329 | corrected weighting: replaying a tracer log, with each vertex callback sent to `VisitVertexCorrected`, appends exactly `LogSamples` of the log, one sample per seen vertex in the order visited |
| LightTracing.PathVisitor.ReceiveAsWritten | src/appleseed/renderer/kernel/rendering/lighttracing/lighttracingsamplegenerator.cpp:230-329 | as written: replaying a tracer log, with each vertex callback sent to `VisitVertex` (which compounds the weight) and each environment callback to `VisitEnvironment`, leaves the visitor in exactly the state `Replay` computes from its old weight and samples |
| LightTracing.PathVisitor.VisitEnvironment | src/appleseed/renderer/kernel/rendering/lighttracing/lighttracingsamplegenerator.cpp:324-329 | the environment callback does nothing: it has no `modifies` clause, so the weight and the samples stay as they were; `ReceiveAsWritten` and `PathTracingProperties.EnvironmentVisitedLast` place it in the log |
| LightTracing.ReplayAppends | src/appleseed/renderer/kernel/rendering/lighttracing/lighttracingsamplegenerator.cpp:230-322 | as written: replaying a log onto earlier samples gives the earlier samples followed by what the same replay from no samples appends, and the same final weight |
| LightTracing.PathSamplesAsWritten | src/appleseed/renderer/kernel/rendering/lighttracing/lighttracingsamplegenerator.cpp:358-451 | as written: a light path's samples are the light vertex's connection followed by the samples `Replay` appends for the callbacks of the light walk; `LightTracingProperties.PathSamplesAsWrittenShape` states how they relate to the corrected ones |
| LightTracing.ParametersFrom | src/appleseed/renderer/kernel/rendering/lighttracing/lighttracingsamplegenerator.cpp:108-120 | texture_cache_size defaults to 16 MiB, report_self_intersections to false and minimum_path_length to 3; present parameters are parsed |
| LightTracing.InitialAlpha | src/appleseed/renderer/kernel/rendering/lighttracing/lighttracingsamplegenerator.cpp:401-403 | the initial weight times the light and direction probabilities gives back the emitted value |
| LightTracing.ContinueEverywhere | src/appleseed/renderer/kernel/rendering/lighttracing/lighttracingsamplegenerator.cpp:230-239 | the light tracer's visitor never stops the walk: every step's reply is continue, the rest unchanged |
| LightTracing.ContinueKeepsWellFormed | src/appleseed/renderer/kernel/rendering/lighttracing/lighttracingsamplegenerator.cpp:230-239 | a well-formed scene stays well formed when the visitor always continues |
| LightTracing.LightTracingSampleGenerator.constructor | src/appleseed/renderer/kernel/rendering/lighttracing/lighttracingsamplegenerator.cpp:77-94 | the generator reads its parameters and starts with zero statistics and a fresh random state |
| LightTracing.LightTracingSampleGenerator.Reset | src/appleseed/renderer/kernel/rendering/lighttracing/lighttracingsamplegenerator.cpp:101-105 | reset re-seeds the random state and nothing else |
| LightTracing.LightTracingSampleGenerator.GenerateSamples | src/appleseed/renderer/kernel/rendering/lighttracing/lighttracingsamplegenerator.cpp:358-451 | corrected weighting: samples are the light vertex's connection followed by the corrected visitor's samples of the traced path (`PathSamples`); the count returned is their number; path count and length population grow by this path |
| LightTracing.LightTracingSampleGenerator.GenerateSamplesAsWritten | src/appleseed/renderer/kernel/rendering/lighttracing/lighttracingsamplegenerator.cpp:358-451 | as written: samples are `PathSamplesAsWritten` of the path appended to the vector, the count returned is their number, and path count, length population and random state change as for `GenerateSamples` |
| LightTracing.LightTracingSampleGenerator.TracePath | src/appleseed/renderer/kernel/rendering/lighttracing/lighttracingsamplegenerator.cpp:421-443 | corrected weighting: after the visitor records the light vertex and the tracer walks the path, the sample vector holds its old contents followed by the path's corrected samples (`PathSamples`), the visitor's count is their number, and the length returned is the light walk's |
| LightTracing.LightTracingSampleGenerator.TracePathAsWritten | src/appleseed/renderer/kernel/rendering/lighttracing/lighttracingsamplegenerator.cpp:421-443 | as written: the sample vector holds its old contents followed by `PathSamplesAsWritten` of the path, the visitor's count is their number, and the length returned is the light walk's |
| LightTracing.LightTracingSampleGenerator.WalkLightPath | src/appleseed/renderer/kernel/rendering/lighttracing/lighttracingsamplegenerator.cpp:414-443 | the tracer built with all three scattering modes, adjoint, the minimum path length and no user limit returns the light walk's path length and callbacks |
| LightTracing.PathSamplesOfWalk | src/appleseed/renderer/kernel/rendering/lighttracing/lighttracingsamplegenerator.cpp:432-443 | corrected weighting: a light path's samples (`PathSamples`) are the light vertex's connection followed by the corrected samples of the callbacks the configured path tracer makes on it |
| LightTracingProperties.LogSamplesShape | src/appleseed/renderer/kernel/rendering/lighttracing/lighttracingsamplegenerator.cpp:313-321 | every sample of a log has alpha 1 and lies on the image plane, and there are at most as many as vertex visits |
| LightTracingProperties.PathSamplesWellPlaced | src/appleseed/renderer/kernel/rendering/lighttracing/lighttracingsamplegenerator.cpp:358-451 | every sample of a light path has alpha 1 and lies in [0,1)² |
| LightTracingProperties.PathSampleCountBound | src/appleseed/renderer/kernel/rendering/lighttracing/lighttracingsamplegenerator.cpp:438-450 | a light path yields at most one sample more than its path length |
| LightTracingProperties.LightVertexSampleFirst | src/appleseed/renderer/kernel/rendering/lighttracing/lighttracingsamplegenerator.cpp:432-443 | the light vertex's sample, if the camera sees it, comes first and carries the initial weight; otherwise the samples are the path's alone |
| LightTracingProperties.LogSamplesDistribute | src/appleseed/renderer/kernel/rendering/lighttracing/lighttracingsamplegenerator.cpp:230-322 | corrected: samples of concatenated logs are the concatenation of their samples (each vertex depends on its own callback only) |
| LightTracingProperties.HiddenVerticesAddNothing | src/appleseed/renderer/kernel/rendering/lighttracing/lighttracingsamplegenerator.cpp:250-266 | vertices the camera does not see add no samples |
| LightTracingProperties.LightWalkEnds | src/appleseed/renderer/kernel/rendering/lighttracing/lighttracingsamplegenerator.cpp:414-443 | a light path ends only by escaping, an unshadeable point, roulette or the hard limit: never by its visitor, a mode mask or a user limit |
| LightTracingProperties.AsWrittenThreeVertices | src/appleseed/renderer/kernel/rendering/lighttracing/lighttracingsamplegenerator.cpp:305-311 | as written, three seen vertices give three samples, and the third one's colour is the initial weight times all three cumulative throughputs, times that vertex's BSDF value towards the camera and its connection factor |
| LightTracingProperties.CorrectedThreeVertices | src/appleseed/renderer/kernel/rendering/lighttracing/lighttracingsamplegenerator.cpp:305-311 | corrected, three seen vertices give three samples, and the third one's colour is the initial weight times that vertex's own cumulative throughput, its BSDF value towards the camera and its connection factor |
| LightTracingProperties.AsWrittenVisit | src/appleseed/renderer/kernel/rendering/lighttracing/lighttracingsamplegenerator.cpp:305-321 | as written, a seen vertex multiplies the particle weight by the throughput and appends exactly one sample, coloured by the new weight times the BSDF value towards the camera times the connection factor |
| LightTracingProperties.LogSamplesOfOne | src/appleseed/renderer/kernel/rendering/lighttracing/lighttracingsamplegenerator.cpp:305-321 | corrected, a log of one vertex callback yields exactly that vertex's samples |
| LightTracingProperties.ThirdColorsDiffer | src/appleseed/renderer/kernel/rendering/lighttracing/lighttracingsamplegenerator.cpp:305-306 | in any band where the corrected colour is non-zero and the first two throughputs do not multiply to 1, the compounded colour differs from the corrected one |
| LightTracingProperties.CompoundedWeightCounterexample | src/appleseed/renderer/kernel/rendering/lighttracing/lighttracingsamplegenerator.cpp:305-306 | whenever the first two throughputs do not multiply to 1, the written and corrected third samples differ |
| LightTracingProperties.AsWrittenShapeMatchesCorrected | src/appleseed/renderer/kernel/rendering/lighttracing/lighttracingsamplegenerator.cpp:230-322 | the as-written replay of a log and the corrected `LogSamples` give the same number of samples, at the same positions with the same alpha, in the same order: they differ only in colour |
| LightTracingProperties.PathSamplesAsWrittenShape | src/appleseed/renderer/kernel/rendering/lighttracing/lighttracingsamplegenerator.cpp:358-451 | a light path's as-written and corrected samples agree in number, position and alpha, sample by sample |
| ImageBasedLighting.MisPower2 | src/appleseed/renderer/kernel/lighting/imagebasedlighting.cpp:129-134 | the power-2 heuristic weight is in (0, 1] and times a² + b² gives a² |
| ImageBasedLighting.MisWeightsSumToOne | src/appleseed/renderer/kernel/lighting/imagebasedlighting.cpp:229-232 | the two techniques' power-2 weights sum to 1 |
| ImageBasedLighting.BsdfMisWeight | src/appleseed/renderer/kernel/lighting/imagebasedlighting.cpp:129-134 | the BSDF-sampling weight is in (0, 1] and is 1 for a Dirac delta |
| ImageBasedLighting.EnvMisWeight | src/appleseed/renderer/kernel/lighting/imagebasedlighting.cpp:229-232 | the environment-sampling weight is in (0, 1] |
| ImageBasedLighting.ComputeIblBsdfSampling | src/appleseed/renderer/kernel/lighting/imagebasedlighting.cpp:54-144 | the loop's radiance is the BSDF-sampling estimate: the sum of the diffuse, unoccluded draws' weighted contributions divided by the count when above 1 |
| ImageBasedLighting.ComputeIblEnvironmentSampling | src/appleseed/renderer/kernel/lighting/imagebasedlighting.cpp:151-242 | the loop's radiance is the environment-sampling estimate over the unoccluded draws where the BSDF is defined |
| ImageBasedLighting.ComputeImageBasedLighting | src/appleseed/renderer/kernel/lighting/imagebasedlighting.cpp:250-304 | the radiance is the sum of both estimates, each technique weighted against the other's sample count |
| ImageBasedLightingProperties.SkippedBsdfDrawsYieldZero | src/appleseed/renderer/kernel/lighting/imagebasedlighting.cpp:94-116 | draws that are all non-diffuse or occluded give zero radiance |
| ImageBasedLightingProperties.SkippedEnvDrawsYieldZero | src/appleseed/renderer/kernel/lighting/imagebasedlighting.cpp:208-226 | draws that are all occluded or where the BSDF is undefined give zero radiance |
| ImageBasedLightingProperties.AverageDividesAboveOne | src/appleseed/renderer/kernel/lighting/imagebasedlighting.cpp:142-143 | the sum is divided by the count only above one sample: times the count it gives back the sum |
| ImageBasedLightingProperties.BsdfEstimateOfFewDraws | src/appleseed/renderer/kernel/lighting/imagebasedlighting.cpp:70-143 | no draw gives black; a single draw gives its own contribution undivided |
| ImageBasedLightingProperties.EnvEstimateOfFewDraws | src/appleseed/renderer/kernel/lighting/imagebasedlighting.cpp:167-241 | no draw gives black; a single draw gives its own contribution undivided |
| ImageBasedLightingProperties.WeightsPartitionUnity | src/appleseed/renderer/kernel/lighting/imagebasedlighting.cpp:129-134 | for a direction both techniques can produce, the BSDF and environment weights sum to 1 |
| ImageBasedLightingProperties.MisPower2Alone | src/appleseed/renderer/kernel/lighting/imagebasedlighting.cpp:129-134 | a technique whose rival has density 0 gets weight 1 |
| ImageBasedLightingProperties.SoleTechniqueHasFullWeight | src/appleseed/renderer/kernel/lighting/imagebasedlighting.cpp:129-134 | when the other technique takes no samples, a technique's weight is 1 |
| ImageBasedLightingProperties.ImageBasedLightingNonNegative | src/appleseed/renderer/kernel/lighting/imagebasedlighting.cpp:250-304 | with non-negative BSDF values, environment values and transmissions the radiance is non-negative in every band |
| SpotLights.DegToRad | src/appleseed/renderer/modeling/light/spotlight.cpp:105-107 | radians × 180 = degrees × π |
| SpotLights.ConeUniformPdf | src/appleseed/renderer/modeling/light/spotlight.cpp:151 | the density times the cone's solid angle 2π(1 − cos θmax) is 1, and it is positive |
| SpotLights.ScreenToUv | src/appleseed/renderer/modeling/light/spotlight.cpp:134 | screen coordinates map onto texture coordinates by x = 2u − 1, y = 2v − 1 |
| SpotLights.UvToScreen | src/appleseed/renderer/modeling/light/spotlight.cpp:134 | the screen point of a texture coordinate maps back to that coordinate |
| SpotLights.Reciprocal | src/appleseed/renderer/modeling/light/spotlight.cpp:111 | the inverse screen half-size times the tangent is 1 |
| SpotLights.SpotLight.constructor | src/appleseed/renderer/modeling/light/spotlight.cpp:74-81 | the light keeps its parameters |
| SpotLights.SpotLight.OnFrameBegin | src/appleseed/renderer/modeling/light/spotlight.cpp:93-124 | fails and changes nothing when the base light fails; otherwise keeps the cosines of half the inner and outer angles in radians, the inverse tangent of the outer half-angle and the frame for the tilt |
| SpotLights.Smoothstep | src/appleseed/renderer/modeling/light/spotlight.cpp:228-233 | smoothstep is 0 at or below its lower edge, 1 at or above its upper edge, and strictly between 0 and 1 in between |
| SpotLights.HermiteInOpenUnitInterval | src/appleseed/renderer/modeling/light/spotlight.cpp:228-233 | the smoothstep polynomial t²(3 − 2t) maps (0, 1) into (0, 1) |
| SpotLights.SpotLight.ComputeExitance | src/appleseed/renderer/modeling/light/spotlight.cpp:217-234 | compute_exitance; `SpotLightProperties.FullExitanceInsideInnerCone` and `SpotLightProperties.PenumbraAttenuates` state its behaviour |
| SpotLights.SpotLight.Evaluate | src/appleseed/renderer/modeling/light/spotlight.cpp:154-164 | evaluate, value only; `SpotLightProperties.OutsideConeIsDark`, `EvaluateOverloadsAgree` and `SampleMatchesEvaluate` state its behaviour |
| SpotLights.SpotLight.EvaluateWithProbability | src/appleseed/renderer/modeling/light/spotlight.cpp:166-184 | evaluate, value and probability; `SpotLightProperties.OutsideConeIsDark` and `EvaluateOverloadsAgree` state its behaviour |
| SpotLights.SpotLight.EvaluatePdf | src/appleseed/renderer/modeling/light/spotlight.cpp:186-196 | the density is non-negative, and positive if and only if the direction is strictly inside the outer cone and the cone has a non-zero opening |
| SpotLights.SpotLight.Sample | src/appleseed/renderer/modeling/light/spotlight.cpp:139-152 | sample; `SpotLightProperties.SampleMatchesEvaluate` states its behaviour |
| SpotLights.SpotLight.ScreenCoordinates | src/appleseed/renderer/modeling/light/spotlight.cpp:130-133 | the screen point of a direction; `SpotLightProperties.AxisMapsToCentre` states its behaviour on the axis |
| SpotLights.SpotLight.EvaluateInputs | src/appleseed/renderer/modeling/light/spotlight.cpp:126-137 | evaluate_inputs' texture coordinates; `SpotLightProperties.AxisMapsToCentre` and `SpotLightProperties.UvRoundTrip` state its behaviour |
| SpotLightProperties.OutsideConeIsDark | src/appleseed/renderer/modeling/light/spotlight.cpp:154-196 | outside the outer cone both evaluate overloads give black and every density is 0 |
| SpotLightProperties.EvaluateOverloadsAgree | src/appleseed/renderer/modeling/light/spotlight.cpp:154-196 | both evaluate overloads give the same value, and the probability returned is evaluate_pdf's |
| SpotLightProperties.SampleMatchesEvaluate | src/appleseed/renderer/modeling/light/spotlight.cpp:139-152 | sample reports the cone-uniform density, and its value and density agree with evaluate in the sampled direction |
| SpotLightProperties.FullExitanceInsideInnerCone | src/appleseed/renderer/modeling/light/spotlight.cpp:217-234 | inside the inner cone the exitance is the full exitance times its multiplier |
| SpotLightProperties.PenumbraAttenuates | src/appleseed/renderer/modeling/light/spotlight.cpp:217-234 | in the penumbra every band of a non-negative exitance lies between 0 and its full value |
| SpotLightProperties.DefaultAngles | src/appleseed/renderer/modeling/light/spotlight.cpp:105-107 | without parameters the half-angles are 10° and 15° and the tilt is 0 |
| SpotLightProperties.HalfAnglesAreHalved | src/appleseed/renderer/modeling/light/spotlight.cpp:105-106 | the half-angles are half the configured angles, in radians |
| SpotLightProperties.UvRoundTrip | src/appleseed/renderer/modeling/light/spotlight.cpp:131-134 | screen and texture coordinates are in one-to-one correspondence |
| SpotLightProperties.AxisMapsToCentre | src/appleseed/renderer/modeling/light/spotlight.cpp:126-137 | a direction along the axis has cos θ equal to its length and lands at texture coordinates (0.5, 0.5) |
| Materials.Material.constructor | src/appleseed/renderer/modeling/material/material.cpp:66-83 | a new material caches nothing |
| Materials.Material.OnFrameBegin | src/appleseed/renderer/modeling/material/material.cpp:103-161 | succeeds, caches the bound surface shader, BSDF, EDF and alpha map, and sets the normal modifier as `ModifierAfterFrameBegin` prescribes |
| Materials.Material.OnFrameEnd | src/appleseed/renderer/modeling/material/material.cpp:163-174 | every cache and the normal modifier are cleared |
| Materials.Material.HasAlphaMap | src/appleseed/renderer/modeling/material/material.cpp:95-101 | has_alpha_map; its behaviour is stated by `MaterialProperties.HasAlphaMapReadsParameter` and `MaterialProperties.HasAlphaMapDependsOnItsParameter` |
| MaterialProperties.HasAlphaMapReadsParameter | src/appleseed/renderer/modeling/material/material.cpp:95-101 | has_alpha_map holds if and only if the alpha_map parameter, read with the empty string as default, is non-empty; a missing parameter gives false |
| MaterialProperties.HasAlphaMapDependsOnItsParameter | src/appleseed/renderer/modeling/material/material.cpp:95-101 | two materials that agree on the alpha_map parameter agree on has_alpha_map, whatever their other parameters |
| MaterialProperties.DisplacementMethodDefault | src/appleseed/renderer/modeling/material/material.cpp:140-141 | the displacement method defaults to "bump" |
| Materials.ModifierAfterFrameBegin | src/appleseed/renderer/modeling/material/material.cpp:112-157 | the modifier on_frame_begin leaves; `MaterialProperties.TextureDisplacementBuildsModifier`, `ModifierKeptOtherwise`, `BuiltModifierReadsTheTexture` and `DisplacementMethodDefault` state its behaviour |
| MaterialProperties.TextureDisplacementBuildsModifier | src/appleseed/renderer/modeling/material/material.cpp:139-148 | a texture with "bump" gives a bump modifier of offset 2 and the bump_amplitude (default 1); with "normal", a normal-mapping modifier on it |
| MaterialProperties.ModifierKeptOtherwise | src/appleseed/renderer/modeling/material/material.cpp:112-157 | no displacement source, a non-texture source or an invalid method leaves the modifier unchanged |
| MaterialProperties.BuiltModifierReadsTheTexture | src/appleseed/renderer/modeling/material/material.cpp:123-148 | a built modifier reads the bound texture |
| NormalMappingProperties.ReconstructEncodeRoundTrip | src/appleseed/renderer/modeling/material/normalmappingmodifier.cpp:63-68 | texel-to-vector reconstruction is a bijection: encoding and reconstruction undo each other |
| NormalMappingProperties.ReconstructSwizzle | src/appleseed/renderer/modeling/material/normalmappingmodifier.cpp:65-68 | x comes from red, y from blue, z from green, each by c ↦ 2c − 1 |
| NormalMappingProperties.SaturatedMeansUnitCube | src/appleseed/renderer/modeling/material/normalmappingmodifier.cpp:64-68 | a texel is saturated if and only if its vector lies in [−1, 1]³ |
| NormalMappingProperties.FlatTexel | src/appleseed/renderer/modeling/material/normalmappingmodifier.cpp:65-68 | the texel (0.5, 0.5, 1) encodes the tangent-space normal (0, 1, 0) |
| NormalMappingProperties.FlatTexelKeepsNormal | src/appleseed/renderer/modeling/material/normalmappingmodifier.cpp:52-73 | the flat texel leaves the surface normal as it is, normalised |
| NormalMappingProperties.EvaluateIgnoresDpdv | src/appleseed/renderer/modeling/material/normalmappingmodifier.cpp:52-73 | the result does not depend on dp/dv |
| NormalMappingProperties.EvaluateDecodesEncodedNormal | src/appleseed/renderer/modeling/material/normalmappingmodifier.cpp:52-73 | when the texture holds the encoding of a tangent-space vector v in [−1, 1]³, the texel is saturated and the result is the normalised world-space image of v itself |
| NormalMapping.Reconstruct | src/appleseed/renderer/modeling/material/normalmappingmodifier.cpp:65-68 | the texel-to-vector map; `NormalMappingProperties.ReconstructEncodeRoundTrip`, `ReconstructSwizzle` and `SaturatedMeansUnitCube` state its behaviour |
| NormalMapping.Evaluate | src/appleseed/renderer/modeling/material/normalmappingmodifier.cpp:52-73 | the modifier's evaluate; `NormalMappingProperties.EvaluateDecodesEncodedNormal`, `FlatTexelKeepsNormal` and `EvaluateIgnoresDpdv` state its behaviour |

## Left out

- Directions, positions and ray geometry of the path tracer and light tracer: every point is recorded in the scene script with what the tracer reads from it (hit, material, alpha, BSDF sample, camera view).
- The random number generator and sampling contexts: samples are recorded draws; `RandomState` counts paths drawn since the last reset.
- Conversion of spectra to CIE XYZ and linear RGB, float rounding (`static_cast<float>`), and logging (the hard-limit warning, check_non_zero_exitance, the colour-space warning, the material's error messages).
- The intersector, BSDF, EDF, environment EDF, camera projection, transmission and texture internals: their results are data of the script or the draws.
- The texture cache and its size.
- Trigonometry, the light's transform, `sample_cone_uniform`, `Basis3d` and `normalize`: parameters of the operations.
- Where the model places the visitor's callbacks: `LightTracing.PathVisitor.Receive` and `LightTracing.PathVisitor.ReceiveAsWritten` replay the tracer's log after the trace instead of during it. `ReceiveAsWritten` makes the same sequence of calls as the tracer, to `VisitVertex` and `VisitEnvironment`. `Receive` sends each vertex callback to `VisitVertexCorrected` instead.
- LightTracing.LightTracingSampleGenerator.GenerateSamples: uses the corrected weighting (initial weight × cumulative throughput at each vertex), not the compounding `m_alpha *= throughput` of src/appleseed/renderer/kernel/rendering/lighttracing/lighttracingsamplegenerator.cpp:305-306. The as-written generator is `LightTracing.LightTracingSampleGenerator.GenerateSamplesAsWritten`.
- LightTracing.LightTracingSampleGenerator.TracePath: uses the corrected weighting; the as-written counterpart is `LightTracing.LightTracingSampleGenerator.TracePathAsWritten`.
- LightTracing.PathVisitor.Receive: uses the corrected weighting through `VisitVertexCorrected`; the as-written counterpart is `LightTracing.PathVisitor.ReceiveAsWritten`.
- LightTracing.PathSamplesOfWalk: states the corrected samples `PathSamples`; the as-written samples are `LightTracing.PathSamplesAsWritten`, and `LightTracingProperties.PathSamplesAsWrittenShape` shows that the two differ only in colour.
- Termination: a scene script is finite and ends in a miss; the C++ loop has no such guarantee beyond the hard limit of 10000 for scattered rays and none for alpha cutoffs.
- The light tracer's `PathTracer` constructor call with two arguments, modelled as bounce limit 0.
- The light tracer's `visit_vertex`, which returns nothing: modelled as always continuing.
- `visit_environment` (src/appleseed/renderer/kernel/rendering/lighttracing/lighttracingsamplegenerator.cpp:324-329) is called by the tracer with four arguments but declared with three; it does nothing either way and has no model beyond the no-op `LightTracing.PathVisitor.VisitEnvironment`.
- `m_inputs.source` bindings and input evaluation: modelled as an `Inputs` record and `InputValues`.
- The spot light's exitance sources (src/appleseed/renderer/modeling/light/spotlight.cpp:100-103): not kept, since evaluation receives the evaluated `InputValues`.
- `ParamArray` holds strings only; `get_required` with a default is modelled as taking the default when missing (its error message is not modelled).
- Material.OnFrameBegin: in C++ a new modifier overwrites (and leaks) one already owned; the model just replaces it.
- Divisions by zero in the light tracer are excluded by positive types (`Scene.Positive`). These are the camera view's `cosTheta` and `squareDistance` (`Scene.CameraView`), the light path's `lightProbability` and `directionProbability` (`LightTracing.LightPath`), and the film width and height (`LightTracing.Camera`). So the model does not cover the source's divisions by a zero cosine or distance (src/appleseed/renderer/kernel/rendering/lighttracing/lighttracingsamplegenerator.cpp:200, 204, 207, 212, 294, 297 and 302), by a zero light or emission probability (src/appleseed/renderer/kernel/rendering/lighttracing/lighttracingsamplegenerator.cpp:402-403), or by a zero film area (src/appleseed/renderer/kernel/rendering/lighttracing/lighttracingsamplegenerator.cpp:155-157).
- SpotLights.ConeUniformPdf: gives 0 for a cone of zero opening (cos θmax ≥ 1), where the source divides by zero.
- SpotLights.Reciprocal: gives 0 where the tangent is 0, where the source divides by zero.
- SpotLights.SpotLight.EvaluateInputs: requires a direction not perpendicular to the axis, where the source divides by zero.
- ImageBasedLighting.MisPower2: requires a > 0 and b ≥ 0, which every call meets (a sample count times a positive density); the case a = b = 0 divides by zero in the source.
- ImageBasedLighting.BsdfMisWeight: requires a positive density and a positive BSDF sample count, as the source asserts (src/appleseed/renderer/kernel/lighting/imagebasedlighting.cpp:98).
- NormalMapping.Evaluate: requires a saturated texel, as the source asserts (src/appleseed/renderer/modeling/material/normalmappingmodifier.cpp:64).

## Findings

| source | as written | input that shows it | evidently intended | confidence | as-written member | corrected member |
|---|---|---|---|---|---|---|
| src/appleseed/renderer/kernel/rendering/lighttracing/lighttracingsamplegenerator.cpp:305-306 | `m_alpha *= throughput` multiplies the particle weight by the throughput at every vertex, but the tracer passes the cumulative throughput since the light (src/appleseed/renderer/kernel/lighting/pathtracer.h:257), so the weight compounds | a light path whose first three vertices the camera sees, with bounce values 1/2 and 1/2: cumulative throughputs 1, 1/2, 1/4, and the third sample weighs 1/8 of the initial weight instead of 1/4 | each sample weighs initial weight × cumulative throughput at that vertex | not executed; high | LightTracingProperties.CompoundedWeightCounterexample (as-written callback LightTracing.PathVisitor.VisitVertex, replayed by LightTracing.PathVisitor.ReceiveAsWritten in LightTracing.LightTracingSampleGenerator.GenerateSamplesAsWritten) | LightTracing.PathVisitor.VisitVertexCorrected, with LightTracingProperties.LogSamplesDistribute, replayed by LightTracing.PathVisitor.Receive in LightTracing.LightTracingSampleGenerator.GenerateSamples |
