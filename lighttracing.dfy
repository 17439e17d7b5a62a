/**
 * The light-tracing sample generator: it emits one particle from a light,
 * follows it with the adjoint path tracer, and at the light vertex and at every
 * vertex of the path connects to the camera, adding one image sample per
 * vertex the camera sees.
 */
module LightTracing {
  import opened Spectra
  import opened Geometry
  import opened Params
  import opened Scene
  import opened PathTracing
  import opened PathTracingProperties

  /** The camera quantities the visitor caches: focal length and film size (in m). */
  datatype Camera = Camera(focalLength: real, filmWidth: Positive, filmHeight: Positive)

  /** An image sample: its position in normalised device coordinates, its colour and its alpha. */
  datatype Sample = Sample(position: Vec2, color: Spectrum, alpha: real)

  /** A point projects onto the image plane when both coordinates lie in [0,1). */
  predicate OnImagePlane(p: Vec2) {
    0.0 <= p.x < 1.0 && 0.0 <= p.y < 1.0
  }

  /** A vertex contributes to the image when it projects onto it and the camera sees it. */
  predicate Visible(view: CameraView) {
    OnImagePlane(view.ndc) && view.transmission != 0.0
  }

  /**
   * The flux-to-radiance factor: the squared distance from the camera to the
   * pixel centre divided by the squared cosine, over the film area.
   */
  function FluxToRadiance(focalLength: real, cosTheta: Positive, rcpFilmArea: real): (r: real)
    ensures r * (cosTheta * cosTheta * cosTheta * cosTheta) == focalLength * focalLength * rcpFilmArea
    ensures rcpFilmArea >= 0.0 ==> r >= 0.0
  {
    var distPixelToCamera := focalLength / cosTheta;
    var q := distPixelToCamera / cosTheta;
    assert q * cosTheta * cosTheta == focalLength;
    calc {
      q * q * rcpFilmArea * (cosTheta * cosTheta * cosTheta * cosTheta);
      (q * cosTheta * cosTheta) * (q * cosTheta * cosTheta) * rcpFilmArea;
      focalLength * focalLength * rcpFilmArea;
    }
    q * q * rcpFilmArea
  }

  /** The geometric term of the camera connection (visibility is already known to be 1). */
  function GeometricTerm(view: CameraView): (g: real)
    ensures g > 0.0
    ensures g * view.squareDistance == view.cosTheta
  {
    view.cosTheta / view.squareDistance
  }

  /** The scalar by which a vertex's radiance reaches the pixel. */
  function ConnectionFactor(view: CameraView, focalLength: real, rcpFilmArea: real): (f: real)
    ensures f * (view.cosTheta * view.cosTheta * view.cosTheta * view.squareDistance)
            == view.transmission * focalLength * focalLength * rcpFilmArea
  {
    var g := GeometricTerm(view);
    var f2r := FluxToRadiance(focalLength, view.cosTheta, rcpFilmArea);
    var c := view.cosTheta;
    calc {
      view.transmission * g * f2r * (c * c * c * view.squareDistance);
      view.transmission * (g * view.squareDistance) * (f2r * (c * c * c * c)) / c;
      view.transmission * focalLength * focalLength * rcpFilmArea;
    }
    view.transmission * g * f2r
  }

  /** The sample a vertex with radiance `radiance` adds, if the camera sees it. */
  function ConnectionSamples(view: CameraView, radiance: Spectrum, focalLength: real, rcpFilmArea: real): (s: seq<Sample>)
    ensures |s| <= 1
    ensures |s| == 1 <==> Visible(view)
    ensures |s| == 1 ==> s[0].position == view.ndc && s[0].alpha == 1.0
  {
    if Visible(view) then
      [Sample(view.ndc, Scale(radiance, ConnectionFactor(view, focalLength, rcpFilmArea)), 1.0)]
    else []
  }

  /** The visitor's particle weight and the samples it has added so far. */
  datatype VisitorState = VisitorState(alpha: Spectrum, samples: seq<Sample>)

  /**
   * What a vertex callback does, as written: a vertex the camera does not see
   * is ignored; otherwise the particle weight is multiplied by the callback's
   * throughput, and the weight times the BSDF value toward the camera gives
   * the sample.
   */
  function VisitVertexSpec(v: VisitorState, point: ShadingPoint, throughput: Spectrum, focalLength: real, rcpFilmArea: real): VisitorState {
    if !Visible(point.view) then v
    else
      var alpha := Mul(v.alpha, throughput);
      VisitorState(alpha, v.samples + ConnectionSamples(point.view, Mul(alpha, point.bsdfToCamera), focalLength, rcpFilmArea))
  }

  /** The visitor's state after the callbacks of a log; rays traced do not reach it. */
  function Replay(v0: VisitorState, events: seq<Event>, focalLength: real, rcpFilmArea: real): VisitorState {
    if |events| == 0 then v0
    else
      var v := Replay(v0, events[..|events| - 1], focalLength, rcpFilmArea);
      match events[|events| - 1]
      case VertexVisited(point, _, _, throughput) => VisitVertexSpec(v, point, throughput, focalLength, rcpFilmArea)
      case _ => v
  }

  /** The film area's reciprocal. */
  function RcpFilmArea(camera: Camera): (r: real)
    ensures r > 0.0 && r * (camera.filmWidth * camera.filmHeight) == 1.0
  {
    1.0 / (camera.filmWidth * camera.filmHeight)
  }

  /** The sample a path vertex adds with the intended weight: initial weight times throughput. */
  function VertexSamples(initialAlpha: Spectrum, point: ShadingPoint, throughput: Spectrum, focalLength: real, rcpFilmArea: real): seq<Sample> {
    ConnectionSamples(point.view, Mul(Mul(initialAlpha, throughput), point.bsdfToCamera), focalLength, rcpFilmArea)
  }

  /** The samples one event adds, with the intended weight: only vertex callbacks add any. */
  function EventSamples(initialAlpha: Spectrum, e: Event, focalLength: real, rcpFilmArea: real): seq<Sample> {
    if e.VertexVisited? then VertexSamples(initialAlpha, e.point, e.throughput, focalLength, rcpFilmArea) else []
  }

  /** The samples the vertex callbacks of a log add, with the intended weight. */
  function LogSamples(initialAlpha: Spectrum, events: seq<Event>, focalLength: real, rcpFilmArea: real): seq<Sample> {
    if |events| == 0 then []
    else
      LogSamples(initialAlpha, events[..|events| - 1], focalLength, rcpFilmArea)
      + EventSamples(initialAlpha, events[|events| - 1], focalLength, rcpFilmArea)
  }

  /** The vector the generator's caller hands in; samples are only ever appended to it. */
  class SampleVector {
    var items: seq<Sample>

    constructor ()
      ensures items == []
    {
      items := [];
    }

    method PushBack(s: Sample)
      modifies this
      ensures items == old(items) + [s]
    {
      items := items + [s];
    }
  }

  /** Every sample a visitor adds has alpha 1 and lies on the image plane. */
  predicate WellPlaced(samples: seq<Sample>) {
    forall i :: 0 <= i < |samples| ==> samples[i].alpha == 1.0 && OnImagePlane(samples[i].position)
  }

  /**
   * The camera-connecting visitor. It adds its samples to the caller's vector
   * and counts them.
   */
  class PathVisitor {
    const focalLength: real
    const rcpFilmArea: real
    const samples: SampleVector
    /** The particle's weight when it leaves the light. */
    const initialAlpha: Spectrum
    /** The length of the caller's vector when the visitor was made. */
    ghost const firstIndex: nat
    var sampleCount: nat
    var alpha: Spectrum

    ghost predicate Valid()
      reads this, samples
    {
      && |samples.items| == firstIndex + sampleCount
      && WellPlaced(samples.items[firstIndex..])
    }

    constructor (camera: Camera, samples: SampleVector, initialAlpha: Spectrum)
      ensures Valid()
      ensures this.samples == samples && firstIndex == |samples.items|
      ensures focalLength == camera.focalLength
      ensures rcpFilmArea == RcpFilmArea(camera)
      ensures sampleCount == 0 && alpha == initialAlpha && this.initialAlpha == initialAlpha
    {
      this.initialAlpha := initialAlpha;
      this.samples := samples;
      firstIndex := |samples.items|;
      rcpFilmArea := 1.0 / (camera.filmWidth * camera.filmHeight);
      focalLength := camera.focalLength;
      sampleCount := 0;
      alpha := initialAlpha;
    }

    /** The number of samples this visitor has added to the vector. */
    function GetSampleCount(): (n: nat)
      reads this, samples
      requires Valid()
      ensures n == |samples.items| - firstIndex
    {
      sampleCount
    }

    method Add(s: Sample)
      requires Valid() && s.alpha == 1.0 && OnImagePlane(s.position)
      modifies this, samples
      ensures Valid()
      ensures samples.items == old(samples.items) + [s] && sampleCount == old(sampleCount) + 1
      ensures alpha == old(alpha)
    {
      samples.PushBack(s);
      sampleCount := sampleCount + 1;
      assert samples.items[firstIndex..] == old(samples.items)[firstIndex..] + [s];
    }

    /** The light vertex: connected to the camera with the particle's initial weight. */
    method VisitLightVertex(view: CameraView)
      requires Valid()
      modifies this, samples
      ensures Valid()
      ensures alpha == old(alpha)
      ensures samples.items == old(samples.items) + ConnectionSamples(view, old(alpha), focalLength, rcpFilmArea)
      ensures sampleCount == old(sampleCount) + |ConnectionSamples(view, old(alpha), focalLength, rcpFilmArea)|
    {
      if view.ndc.x < 0.0 || view.ndc.x >= 1.0 || view.ndc.y < 0.0 || view.ndc.y >= 1.0 {
        return;
      }
      if view.transmission == 0.0 {
        return;
      }
      var cosTheta := view.cosTheta;
      var distPixelToCamera := focalLength / cosTheta;
      var fluxToRadiance := (distPixelToCamera / cosTheta) * (distPixelToCamera / cosTheta) * rcpFilmArea;
      var g := cosTheta / view.squareDistance;
      assert g == GeometricTerm(view) && fluxToRadiance == FluxToRadiance(focalLength, cosTheta, rcpFilmArea);
      var radiance := Scale(alpha, view.transmission * g * fluxToRadiance);
      assert Visible(view);
      assert view.transmission * g * fluxToRadiance == ConnectionFactor(view, focalLength, rcpFilmArea);
      assert ConnectionSamples(view, alpha, focalLength, rcpFilmArea) == [Sample(view.ndc, radiance, 1.0)];
      Add(Sample(view.ndc, radiance, 1.0));
    }

    /**
     * A vertex of the path, reached with the given throughput. `point.view` is
     * the camera connection from it and `point.bsdfToCamera` the BSDF there
     * evaluated toward the camera.
     */
    method VisitVertex(point: ShadingPoint, throughput: Spectrum)
      requires Valid()
      modifies this, samples
      ensures Valid()
      ensures VisitorState(alpha, samples.items)
           == VisitVertexSpec(VisitorState(old(alpha), old(samples.items)), point, throughput, focalLength, rcpFilmArea)
      ensures sampleCount == old(sampleCount) + |samples.items| - |old(samples.items)|
    {
      var view := point.view;
      if view.ndc.x < 0.0 || view.ndc.x >= 1.0 || view.ndc.y < 0.0 || view.ndc.y >= 1.0 {
        return;
      }
      if view.transmission == 0.0 {
        return;
      }
      var bsdfValue := point.bsdfToCamera;
      var cosTheta := view.cosTheta;
      var distPixelToCamera := focalLength / cosTheta;
      var fluxToRadiance := (distPixelToCamera / cosTheta) * (distPixelToCamera / cosTheta) * rcpFilmArea;
      var g := cosTheta / view.squareDistance;
      assert g == GeometricTerm(view) && fluxToRadiance == FluxToRadiance(focalLength, cosTheta, rcpFilmArea);

      // Update the particle weight.
      alpha := Mul(alpha, throughput);

      var radiance := Mul(alpha, bsdfValue);
      radiance := Scale(radiance, view.transmission * g * fluxToRadiance);
      assert Visible(view);
      assert view.transmission * g * fluxToRadiance == ConnectionFactor(view, focalLength, rcpFilmArea);
      assert ConnectionSamples(view, Mul(alpha, bsdfValue), focalLength, rcpFilmArea) == [Sample(view.ndc, radiance, 1.0)];
      Add(Sample(view.ndc, radiance, 1.0));
    }

    /**
     * The vertex callback with the particle weight the code evidently intends:
     * the initial weight times the throughput the tracer reports, which
     * already holds every bounce of the path.
     */
    method VisitVertexCorrected(point: ShadingPoint, throughput: Spectrum)
      requires Valid()
      modifies this, samples
      ensures Valid()
      ensures alpha == old(alpha)
      ensures samples.items == old(samples.items) + VertexSamples(initialAlpha, point, throughput, focalLength, rcpFilmArea)
      ensures sampleCount == old(sampleCount) + |VertexSamples(initialAlpha, point, throughput, focalLength, rcpFilmArea)|
    {
      var view := point.view;
      if view.ndc.x < 0.0 || view.ndc.x >= 1.0 || view.ndc.y < 0.0 || view.ndc.y >= 1.0 {
        return;
      }
      if view.transmission == 0.0 {
        return;
      }
      var bsdfValue := point.bsdfToCamera;
      var cosTheta := view.cosTheta;
      var distPixelToCamera := focalLength / cosTheta;
      var fluxToRadiance := (distPixelToCamera / cosTheta) * (distPixelToCamera / cosTheta) * rcpFilmArea;
      var g := cosTheta / view.squareDistance;
      assert g == GeometricTerm(view) && fluxToRadiance == FluxToRadiance(focalLength, cosTheta, rcpFilmArea);

      var radiance := Mul(Mul(initialAlpha, throughput), bsdfValue);
      radiance := Scale(radiance, view.transmission * g * fluxToRadiance);
      assert Visible(view);
      assert view.transmission * g * fluxToRadiance == ConnectionFactor(view, focalLength, rcpFilmArea);
      assert VertexSamples(initialAlpha, point, throughput, focalLength, rcpFilmArea) == [Sample(view.ndc, radiance, 1.0)];
      Add(Sample(view.ndc, radiance, 1.0));
    }

    /**
     * The callbacks of a walk, in order: the vertex callbacks reach
     * VisitVertexCorrected, the environment callback VisitEnvironment.
     */
    method Receive(events: seq<Event>)
      requires Valid()
      modifies this, samples
      ensures Valid()
      ensures samples.items == old(samples.items) + LogSamples(initialAlpha, events, focalLength, rcpFilmArea)
    {
      var i := 0;
      while i < |events|
        invariant 0 <= i <= |events|
        invariant Valid()
        invariant samples.items == old(samples.items) + LogSamples(initialAlpha, events[..i], focalLength, rcpFilmArea)
      {
        assert events[..i + 1][..i] == events[..i];
        match events[i] {
          case VertexVisited(point, _, _, throughput) =>
            VisitVertexCorrected(point, throughput);
          case EnvironmentVisited(point, _, throughput) =>
            VisitEnvironment(point, throughput);
          case _ =>
        }
        i := i + 1;
      }
      assert events[..|events|] == events;
    }

    /**
     * The callbacks of a walk, in order, as the source makes them: the vertex
     * callbacks reach the as-written VisitVertex, which compounds the weight.
     */
    method ReceiveAsWritten(events: seq<Event>)
      requires Valid()
      modifies this, samples
      ensures Valid()
      ensures VisitorState(alpha, samples.items)
           == Replay(VisitorState(old(alpha), old(samples.items)), events, focalLength, rcpFilmArea)
    {
      ghost var v0 := VisitorState(alpha, samples.items);
      var i := 0;
      while i < |events|
        invariant 0 <= i <= |events|
        invariant Valid()
        invariant VisitorState(alpha, samples.items) == Replay(v0, events[..i], focalLength, rcpFilmArea)
      {
        assert events[..i + 1][..i] == events[..i];
        match events[i] {
          case VertexVisited(point, _, _, throughput) =>
            VisitVertex(point, throughput);
          case EnvironmentVisited(point, _, throughput) =>
            VisitEnvironment(point, throughput);
          case _ =>
        }
        i := i + 1;
      }
      assert events[..|events|] == events;
    }

    /** The light tracer does nothing when a particle escapes. */
    method VisitEnvironment(point: ShadingPoint, throughput: Spectrum)
    {
    }
  }

  /** The generator's settings, read from its parameter array. */
  datatype Parameters = Parameters(textureCacheSize: nat, reportSelfIntersections: bool, minimumPathLength: nat)

  const DefaultTextureCacheSize: nat := 16 * 1024 * 1024
  const DefaultMinimumPathLength: nat := 3

  /** Parameters::Parameters: each setting is optional and has a default. */
  function ParametersFrom(params: ParamArray, parseCount: string -> nat, parseFlag: string -> bool): (p: Parameters)
    ensures "texture_cache_size" !in params ==> p.textureCacheSize == 16777216
    ensures "report_self_intersections" !in params ==> !p.reportSelfIntersections
    ensures "minimum_path_length" !in params ==> p.minimumPathLength == 3
    ensures "texture_cache_size" in params ==> p.textureCacheSize == parseCount(params["texture_cache_size"])
    ensures "report_self_intersections" in params
            ==> p.reportSelfIntersections == parseFlag(params["report_self_intersections"])
    ensures "minimum_path_length" in params ==> p.minimumPathLength == parseCount(params["minimum_path_length"])
  {
    Parameters(
      GetCount(params, "texture_cache_size", DefaultTextureCacheSize, parseCount),
      GetFlag(params, "report_self_intersections", false, parseFlag),
      GetCount(params, "minimum_path_length", DefaultMinimumPathLength, parseCount))
  }

  /** The number of light paths traced and the population of their lengths. */
  datatype Statistics = Statistics(pathCount: nat, pathLengths: seq<nat>)

  /**
   * The generator's random number generator, seen only through how many light
   * paths have drawn from it since it was last reset.
   */
  datatype RandomState = RandomState(pathsDrawn: nat)

  /**
   * What the light sampler and the EDF give for one particle: the light
   * sample's probability, the emitted value and its direction's probability,
   * the camera connection from the light vertex, and the scene the emitted
   * ray meets, as the path tracer's script.
   */
  datatype LightPath = LightPath(
    lightProbability: Positive,
    emission: Spectrum,
    directionProbability: Positive,
    lightVertex: CameraView,
    script: seq<Step>)

  /** The particle's initial weight: the emitted value over both sampling probabilities. */
  function InitialAlpha(path: LightPath): (a: Spectrum)
    ensures forall i :: 0 <= i < Channels
              ==> a[i] * (path.lightProbability * path.directionProbability) == path.emission[i]
  {
    Scale(path.emission, 1.0 / (path.lightProbability * path.directionProbability))
  }

  /** The light tracer's visitor never stops a path: every vertex reply is to go on. */
  function ContinueEverywhere(script: seq<Step>): (r: seq<Step>)
    ensures |r| == |script|
    ensures forall i :: 0 <= i < |r| ==> r[i].visitorContinues && r[i] == script[i].(visitorContinues := true)
  {
    seq(|script|, i requires 0 <= i < |script| => script[i].(visitorContinues := true))
  }

  lemma ContinueKeepsWellFormed(script: seq<Step>)
    requires WellFormed(script)
    ensures WellFormed(ContinueEverywhere(script))
  {
  }

  /** The path tracer the generator builds: all modes, adjoint, roulette from the minimum length, no user limit. */
  function TracerSettings(p: Parameters): Config {
    Config({Diffuse, Glossy, Specular}, true, p.minimumPathLength, 0)
  }

  /** The walk the emitted particle takes. */
  function LightWalk(p: Parameters, path: LightPath): Outcome
    requires WellFormed(path.script)
  {
    ContinueKeepsWellFormed(path.script);
    Run(TracerSettings(p), ContinueEverywhere(path.script))
  }

  /** All samples one light path adds: the light vertex's, then those of the path's vertices. */
  function PathSamples(camera: Camera, p: Parameters, path: LightPath): seq<Sample>
    requires WellFormed(path.script)
  {
    var alpha0 := InitialAlpha(path);
    ConnectionSamples(path.lightVertex, alpha0, camera.focalLength, RcpFilmArea(camera))
    + LogSamples(alpha0, LightWalk(p, path).events, camera.focalLength, RcpFilmArea(camera))
  }

  /**
   * All samples one light path adds as the source computes them: the light
   * vertex's, then those of the as-written visitor replaying the walk.
   */
  function PathSamplesAsWritten(camera: Camera, p: Parameters, path: LightPath): seq<Sample>
    requires WellFormed(path.script)
  {
    var alpha0 := InitialAlpha(path);
    ConnectionSamples(path.lightVertex, alpha0, camera.focalLength, RcpFilmArea(camera))
    + Replay(VisitorState(alpha0, []), LightWalk(p, path).events, camera.focalLength, RcpFilmArea(camera)).samples
  }

  /**
   * Replaying from any earlier samples appends to them what replaying from no
   * samples produces, and leaves the same weight.
   */
  lemma {:induction false} ReplayAppends(alpha: Spectrum, earlier: seq<Sample>, events: seq<Event>,
                                         focalLength: real, rcpFilmArea: real)
    ensures var fromNone := Replay(VisitorState(alpha, []), events, focalLength, rcpFilmArea);
      Replay(VisitorState(alpha, earlier), events, focalLength, rcpFilmArea)
        == VisitorState(fromNone.alpha, earlier + fromNone.samples)
    decreases |events|
  {
    if |events| > 0 {
      var prefix := events[..|events| - 1];
      ReplayAppends(alpha, earlier, prefix, focalLength, rcpFilmArea);
      var v := Replay(VisitorState(alpha, []), prefix, focalLength, rcpFilmArea);
      match events[|events| - 1]
      case VertexVisited(point, _, _, throughput) =>
        if Visible(point.view) {
          var added := ConnectionSamples(point.view, Mul(Mul(v.alpha, throughput), point.bsdfToCamera),
                                         focalLength, rcpFilmArea);
          assert (earlier + v.samples) + added == earlier + (v.samples + added);
        }
      case _ =>
    }
  }

  /** A light path's samples, split into the light vertex's and those of the walk's callbacks. */
  lemma PathSamplesOfWalk(camera: Camera, p: Parameters, path: LightPath)
    requires WellFormed(path.script)
    ensures WellFormed(ContinueEverywhere(path.script))
    ensures LightWalk(p, path) == Run(TracerSettings(p), ContinueEverywhere(path.script))
    ensures PathSamples(camera, p, path)
         == ConnectionSamples(path.lightVertex, InitialAlpha(path), camera.focalLength, RcpFilmArea(camera))
            + LogSamples(InitialAlpha(path), Run(TracerSettings(p), ContinueEverywhere(path.script)).events,
                         camera.focalLength, RcpFilmArea(camera))
  {
    ContinueKeepsWellFormed(path.script);
  }

  /**
   * The as-written replay after the light vertex: the vector holds its old
   * contents, the light vertex's samples, then what the replay appends from no
   * samples.
   */
  lemma ReplayAfterLightVertex(before: seq<Sample>, lightVertexSamples: seq<Sample>, afterLight: seq<Sample>,
                               after: seq<Sample>, alpha: Spectrum, finalAlpha: Spectrum, events: seq<Event>,
                               focalLength: real, rcpFilmArea: real)
    requires afterLight == before + lightVertexSamples
    requires VisitorState(finalAlpha, after) == Replay(VisitorState(alpha, afterLight), events, focalLength, rcpFilmArea)
    ensures after == before + (lightVertexSamples + Replay(VisitorState(alpha, []), events, focalLength, rcpFilmArea).samples)
  {
    ReplayAppends(alpha, afterLight, events, focalLength, rcpFilmArea);
  }

  /** Appending b and then c is appending b + c. */
  lemma AppendRegroup<T>(a: seq<T>, b: seq<T>, c: seq<T>, ab: seq<T>, abc: seq<T>)
    requires ab == a + b && abc == ab + c
    ensures abc == a + (b + c)
  {
  }

  class LightTracingSampleGenerator {
    const params: Parameters
    const camera: Camera
    var stats: Statistics
    var rng: RandomState

    ghost predicate Valid()
      reads this
    {
      stats.pathCount == |stats.pathLengths|
    }

    constructor (params: ParamArray, camera: Camera, parseCount: string -> nat, parseFlag: string -> bool)
      ensures Valid()
      ensures this.params == ParametersFrom(params, parseCount, parseFlag) && this.camera == camera
      ensures stats == Statistics(0, []) && rng == RandomState(0)
    {
      this.params := ParametersFrom(params, parseCount, parseFlag);
      this.camera := camera;
      stats := Statistics(0, []);
      rng := RandomState(0);
    }

    /** Restart the random number sequence; the statistics are kept. */
    method Reset()
      requires Valid()
      modifies this
      ensures Valid()
      ensures rng == RandomState(0) && stats == old(stats)
    {
      rng := RandomState(0);
    }

    /**
     * Trace one light path and add its samples to `samples`; returns how many
     * were added.
     */
    method GenerateSamples(path: LightPath, samples: SampleVector) returns (count: nat)
      requires Valid() && WellFormed(path.script)
      modifies this, samples
      ensures Valid()
      ensures samples.items == old(samples.items) + PathSamples(camera, params, path)
      ensures count == |PathSamples(camera, params, path)|
      ensures stats == Statistics(old(stats.pathCount) + 1,
                                  old(stats.pathLengths) + [LightWalk(params, path).final.pathLength])
      ensures rng == RandomState(old(rng.pathsDrawn) + 1)
    {
      rng := RandomState(rng.pathsDrawn + 1);
      var pathLength;
      pathLength, count := TracePath(path, samples);
      stats := Statistics(stats.pathCount + 1, stats.pathLengths + [pathLength]);
    }

    /**
     * The body of generate_samples once the path is drawn: a visitor records
     * the light vertex, then the path tracer walks the path and the visitor
     * records its vertices.
     */
    method TracePath(path: LightPath, samples: SampleVector) returns (pathLength: nat, count: nat)
      requires WellFormed(path.script)
      modifies samples
      ensures samples.items == old(samples.items) + PathSamples(camera, params, path)
      ensures count == |PathSamples(camera, params, path)|
      ensures pathLength == LightWalk(params, path).final.pathLength
    {
      var initialAlpha := InitialAlpha(path);
      var visitor := new PathVisitor(camera, samples, initialAlpha);

      // The light vertex is handled separately.
      visitor.VisitLightVertex(path.lightVertex);
      ghost var lightVertexSamples := ConnectionSamples(path.lightVertex, initialAlpha, camera.focalLength, RcpFilmArea(camera));
      ghost var afterLight := samples.items;

      var events;
      pathLength, events := WalkLightPath(path);
      ghost var vertexSamples := LogSamples(initialAlpha, events, camera.focalLength, RcpFilmArea(camera));
      assert PathSamples(camera, params, path) == lightVertexSamples + vertexSamples;

      visitor.Receive(events);
      AppendRegroup(old(samples.items), lightVertexSamples, vertexSamples, afterLight, samples.items);
      assert |samples.items| - |old(samples.items)| == |PathSamples(camera, params, path)|;
      count := visitor.GetSampleCount();
    }

    /**
     * generate_samples as the source writes it: the same steps as
     * GenerateSamples, with the visitor's as-written vertex callback.
     */
    method GenerateSamplesAsWritten(path: LightPath, samples: SampleVector) returns (count: nat)
      requires Valid() && WellFormed(path.script)
      modifies this, samples
      ensures Valid()
      ensures samples.items == old(samples.items) + PathSamplesAsWritten(camera, params, path)
      ensures count == |PathSamplesAsWritten(camera, params, path)|
      ensures stats == Statistics(old(stats.pathCount) + 1,
                                  old(stats.pathLengths) + [LightWalk(params, path).final.pathLength])
      ensures rng == RandomState(old(rng.pathsDrawn) + 1)
    {
      rng := RandomState(rng.pathsDrawn + 1);
      var pathLength;
      pathLength, count := TracePathAsWritten(path, samples);
      stats := Statistics(stats.pathCount + 1, stats.pathLengths + [pathLength]);
    }

    /** TracePath with the visitor's as-written vertex callback. */
    method TracePathAsWritten(path: LightPath, samples: SampleVector) returns (pathLength: nat, count: nat)
      requires WellFormed(path.script)
      modifies samples
      ensures samples.items == old(samples.items) + PathSamplesAsWritten(camera, params, path)
      ensures count == |PathSamplesAsWritten(camera, params, path)|
      ensures pathLength == LightWalk(params, path).final.pathLength
    {
      var initialAlpha := InitialAlpha(path);
      var visitor := new PathVisitor(camera, samples, initialAlpha);

      // The light vertex is handled separately.
      visitor.VisitLightVertex(path.lightVertex);
      ghost var lightVertexSamples := ConnectionSamples(path.lightVertex, initialAlpha, camera.focalLength, RcpFilmArea(camera));
      ghost var afterLight := samples.items;

      var events;
      pathLength, events := WalkLightPath(path);
      ghost var vertexSamples := Replay(VisitorState(initialAlpha, []), events, camera.focalLength, RcpFilmArea(camera)).samples;
      assert PathSamplesAsWritten(camera, params, path) == lightVertexSamples + vertexSamples;

      visitor.ReceiveAsWritten(events);
      ReplayAfterLightVertex(old(samples.items), lightVertexSamples, afterLight, samples.items,
                             initialAlpha, visitor.alpha, events, camera.focalLength, RcpFilmArea(camera));
      count := visitor.GetSampleCount();
    }

    /** The path tracer the generator builds, run on the path with every vertex reply set to go on. */
    method WalkLightPath(path: LightPath) returns (pathLength: nat, events: seq<Event>)
      requires WellFormed(path.script)
      ensures pathLength == LightWalk(params, path).final.pathLength
      ensures events == LightWalk(params, path).events
    {
      var tracer := new PathTracer({Diffuse, Glossy, Specular}, true, params.minimumPathLength, 0);
      assert tracer.Settings() == TracerSettings(params);
      var script := ContinueEverywhere(path.script);
      ContinueKeepsWellFormed(path.script);
      pathLength, events := tracer.TraceRay(script);
    }
  }
}
