/**
 * What one light path contributes to the image: every sample lies on the image
 * plane with alpha 1, there is at most one per vertex, the light vertex's comes
 * first, and each vertex's sample depends only on its own callback.
 */
module LightTracingProperties {
  import opened Spectra
  import opened Geometry
  import opened Scene
  import opened PathTracing
  import opened PathTracingProperties
  import opened LightTracing
  import opened RealArith

  lemma WellPlacedAppend(a: seq<Sample>, b: seq<Sample>)
    requires WellPlaced(a) && WellPlaced(b)
    ensures WellPlaced(a + b)
  {
    forall i | 0 <= i < |a + b|
      ensures (a + b)[i].alpha == 1.0 && OnImagePlane((a + b)[i].position)
    {
      if i >= |a| {
        assert (a + b)[i] == b[i - |a|];
      }
    }
  }

  /** The vertex callbacks add at most one sample each, all well placed. */
  lemma {:induction false} LogSamplesShape(a0: Spectrum, events: seq<Event>, focalLength: real, rcpFilmArea: real)
    ensures WellPlaced(LogSamples(a0, events, focalLength, rcpFilmArea))
    ensures |LogSamples(a0, events, focalLength, rcpFilmArea)| <= VertexVisits(events)
    decreases |events|
  {
    if |events| > 0 {
      var prefix := events[..|events| - 1];
      LogSamplesShape(a0, prefix, focalLength, rcpFilmArea);
      match events[|events| - 1]
      case VertexVisited(point, _, _, throughput) =>
        WellPlacedAppend(LogSamples(a0, prefix, focalLength, rcpFilmArea),
                         VertexSamples(a0, point, throughput, focalLength, rcpFilmArea));
      case _ =>
        assert LogSamples(a0, events, focalLength, rcpFilmArea) == LogSamples(a0, prefix, focalLength, rcpFilmArea) + [];
    }
  }

  /** Every sample of a light path has alpha 1 and lies on the image plane. */
  lemma PathSamplesWellPlaced(camera: Camera, p: Parameters, path: LightPath)
    requires WellFormed(path.script)
    ensures WellPlaced(PathSamples(camera, p, path))
  {
    var alpha0 := InitialAlpha(path);
    LogSamplesShape(alpha0, LightWalk(p, path).events, camera.focalLength, RcpFilmArea(camera));
    WellPlacedAppend(ConnectionSamples(path.lightVertex, alpha0, camera.focalLength, RcpFilmArea(camera)),
                     LogSamples(alpha0, LightWalk(p, path).events, camera.focalLength, RcpFilmArea(camera)));
  }

  /**
   * A light path adds at most one sample per vertex: one for the light vertex
   * and at most one per bounce of the walk.
   */
  lemma PathSampleCountBound(camera: Camera, p: Parameters, path: LightPath)
    requires WellFormed(path.script)
    ensures |PathSamples(camera, p, path)| <= 1 + LightWalk(p, path).final.pathLength
  {
    ContinueKeepsWellFormed(path.script);
    PathLengthBounds(TracerSettings(p), ContinueEverywhere(path.script));
    LogSamplesShape(InitialAlpha(path), LightWalk(p, path).events, camera.focalLength, RcpFilmArea(camera));
  }

  /**
   * The light vertex's sample comes first, if the camera sees the light vertex:
   * the initial weight carried to the pixel, at the light vertex's projection.
   */
  lemma LightVertexSampleFirst(camera: Camera, p: Parameters, path: LightPath)
    requires WellFormed(path.script)
    ensures var s := PathSamples(camera, p, path);
      var rest := LogSamples(InitialAlpha(path), LightWalk(p, path).events, camera.focalLength, RcpFilmArea(camera));
      && (Visible(path.lightVertex) ==>
            s == [Sample(path.lightVertex.ndc,
                         Scale(InitialAlpha(path), ConnectionFactor(path.lightVertex, camera.focalLength, RcpFilmArea(camera))),
                         1.0)] + rest)
      && (!Visible(path.lightVertex) ==> s == rest)
  {
    var rest := LogSamples(InitialAlpha(path), LightWalk(p, path).events, camera.focalLength, RcpFilmArea(camera));
    if !Visible(path.lightVertex) {
      assert [] + rest == rest;
    }
  }

  /**
   * Each vertex's sample depends only on its own callback: the samples of two
   * logs one after the other are those of the first followed by those of the second.
   */
  lemma {:induction false} LogSamplesDistribute(a0: Spectrum, e1: seq<Event>, e2: seq<Event>, focalLength: real, rcpFilmArea: real)
    ensures LogSamples(a0, e1 + e2, focalLength, rcpFilmArea)
         == LogSamples(a0, e1, focalLength, rcpFilmArea) + LogSamples(a0, e2, focalLength, rcpFilmArea)
    decreases |e2|
  {
    if |e2| == 0 {
      assert e1 + e2 == e1;
    } else {
      var l := e1 + e2;
      var prefix := e2[..|e2| - 1];
      var last := EventSamples(a0, e2[|e2| - 1], focalLength, rcpFilmArea);
      assert l[..|l| - 1] == e1 + prefix;
      assert l[|l| - 1] == e2[|e2| - 1];
      var s1 := LogSamples(a0, e1, focalLength, rcpFilmArea);
      var sp := LogSamples(a0, prefix, focalLength, rcpFilmArea);
      assert LogSamples(a0, l, focalLength, rcpFilmArea) == LogSamples(a0, e1 + prefix, focalLength, rcpFilmArea) + last;
      LogSamplesDistribute(a0, e1, prefix, focalLength, rcpFilmArea);
      assert LogSamples(a0, e2, focalLength, rcpFilmArea) == sp + last;
      assert (s1 + sp) + last == s1 + (sp + last);
    }
  }

  /** A vertex the camera does not see adds nothing. */
  lemma {:induction false} HiddenVerticesAddNothing(a0: Spectrum, events: seq<Event>, focalLength: real, rcpFilmArea: real)
    requires forall i :: 0 <= i < |events| && events[i].VertexVisited? ==> !Visible(events[i].point.view)
    ensures LogSamples(a0, events, focalLength, rcpFilmArea) == []
    decreases |events|
  {
    if |events| > 0 {
      HiddenVerticesAddNothing(a0, events[..|events| - 1], focalLength, rcpFilmArea);
    }
  }

  /** The light tracer's settings accept every mode and have no bounce limit of their own. */
  lemma {:induction false} LightWalkExits(c: Config, script: seq<Step>, k: nat, st: State, events: seq<Event>)
    requires WellFormed(script) && k < |script|
    requires c.modesMask == {Diffuse, Glossy, Specular} && c.maxPathLength == 0
    requires forall i :: 0 <= i < |script| ==> script[i].visitorContinues
    ensures var e := Walk(c, script, k, st, events).exit;
      e != VisitorStopped && e != ModeRejected && e != UserLimitReached
    decreases |script| - k
  {
    var m := script[k].draws.scatter.mode;
    assert m in c.modesMask by {
      if m.Diffuse? {} else if m.Glossy? {} else {}
    }
    match Transition(c, script[k], st)
    case Stop(_, _, _) =>
    case Retry =>
      LightWalkExits(c, script, k + 1, st, events + [CutoffTraced]);
    case Continue(next, evs) =>
      LightWalkExits(c, script, k + 1, next, events + evs);
  }

  /**
   * A light path ends only because it escaped, met a point it cannot shade,
   * lost at Russian roulette or reached the hard limit: its visitor never stops
   * it, no mode is masked out and there is no user limit.
   */
  lemma LightWalkEnds(p: Parameters, path: LightPath)
    requires WellFormed(path.script)
    ensures var e := LightWalk(p, path).exit;
      e in {Missed, NoMaterial, NoSurfaceShader, NoBsdf, RouletteKilled, HardLimitReached}
  {
    ContinueKeepsWellFormed(path.script);
    LightWalkExits(TracerSettings(p), ContinueEverywhere(path.script), 0, Start(), []);
    var e := LightWalk(p, path).exit;
    assert e != VisitorStopped && e != ModeRejected && e != UserLimitReached;
  }

  lemma MulUniform(a: real, b: real)
    ensures Mul(Uniform(a), Uniform(b)) == Uniform(a * b)
  {
    assert forall i :: 0 <= i < Channels ==> Mul(Uniform(a), Uniform(b))[i] == Uniform(a * b)[i];
  }

  lemma ReplaySnoc(v0: VisitorState, events: seq<Event>, e: Event, focalLength: real, rcpFilmArea: real)
    ensures Replay(v0, events + [e], focalLength, rcpFilmArea)
         == if e.VertexVisited?
            then VisitVertexSpec(Replay(v0, events, focalLength, rcpFilmArea), e.point, e.throughput, focalLength, rcpFilmArea)
            else Replay(v0, events, focalLength, rcpFilmArea)
  {
    assert (events + [e])[..|events|] == events;
  }

  /**
   * A seen vertex as written: the weight is multiplied by the throughput, and
   * one sample is added, coloured by the new weight times the BSDF value
   * towards the camera, scaled by the connection factor.
   */
  lemma AsWrittenVisit(v: VisitorState, point: ShadingPoint, throughput: Spectrum, focalLength: real, rcpFilmArea: real)
    requires Visible(point.view)
    ensures var w := VisitVertexSpec(v, point, throughput, focalLength, rcpFilmArea);
      && w.alpha == Mul(v.alpha, throughput)
      && |w.samples| == |v.samples| + 1
      && w.samples[|v.samples|].color
         == Scale(Mul(w.alpha, point.bsdfToCamera), ConnectionFactor(point.view, focalLength, rcpFilmArea))
  {
  }

  /**
   * Three seen vertices, as written: the third sample's weight is the initial
   * weight times all three cumulative throughputs.
   */
  lemma {:induction false} AsWrittenThreeVertices(a0: Spectrum, e1: Event, e2: Event, e3: Event, focalLength: real, rcpFilmArea: real)
    requires e1.VertexVisited? && e2.VertexVisited? && e3.VertexVisited?
    requires Visible(e1.point.view) && Visible(e2.point.view) && Visible(e3.point.view)
    ensures var s := Replay(VisitorState(a0, []), [e1, e2, e3], focalLength, rcpFilmArea).samples;
      && |s| == 3
      && s[2].color == Scale(Mul(Mul(Mul(Mul(a0, e1.throughput), e2.throughput), e3.throughput), e3.point.bsdfToCamera),
                             ConnectionFactor(e3.point.view, focalLength, rcpFilmArea))
  {
    var v0 := VisitorState(a0, []);
    var v1 := Replay(v0, [e1], focalLength, rcpFilmArea);
    var v2 := Replay(v0, [e1, e2], focalLength, rcpFilmArea);
    var v3 := Replay(v0, [e1, e2, e3], focalLength, rcpFilmArea);
    assert v1 == VisitVertexSpec(v0, e1.point, e1.throughput, focalLength, rcpFilmArea) by {
      assert [] + [e1] == [e1];
      ReplaySnoc(v0, [], e1, focalLength, rcpFilmArea);
    }
    assert v2 == VisitVertexSpec(v1, e2.point, e2.throughput, focalLength, rcpFilmArea) by {
      assert [e1] + [e2] == [e1, e2];
      ReplaySnoc(v0, [e1], e2, focalLength, rcpFilmArea);
    }
    assert v3 == VisitVertexSpec(v2, e3.point, e3.throughput, focalLength, rcpFilmArea) by {
      assert [e1, e2] + [e3] == [e1, e2, e3];
      ReplaySnoc(v0, [e1, e2], e3, focalLength, rcpFilmArea);
    }
    AsWrittenVisit(v0, e1.point, e1.throughput, focalLength, rcpFilmArea);
    AsWrittenVisit(v1, e2.point, e2.throughput, focalLength, rcpFilmArea);
    AsWrittenVisit(v2, e3.point, e3.throughput, focalLength, rcpFilmArea);
  }

  /** A log of one callback adds that callback's samples. */
  lemma LogSamplesOfOne(a0: Spectrum, e: Event, focalLength: real, rcpFilmArea: real)
    requires e.VertexVisited?
    ensures LogSamples(a0, [e], focalLength, rcpFilmArea) == VertexSamples(a0, e.point, e.throughput, focalLength, rcpFilmArea)
  {
    assert [e][..0] == [];
  }

  /**
   * Three seen vertices, corrected: the third sample's weight is the initial
   * weight times the third vertex's throughput alone.
   */
  lemma {:induction false} CorrectedThreeVertices(a0: Spectrum, e1: Event, e2: Event, e3: Event, focalLength: real, rcpFilmArea: real)
    requires e1.VertexVisited? && e2.VertexVisited? && e3.VertexVisited?
    requires Visible(e1.point.view) && Visible(e2.point.view) && Visible(e3.point.view)
    ensures var s := LogSamples(a0, [e1, e2, e3], focalLength, rcpFilmArea);
      && |s| == 3
      && s[2].color == Scale(Mul(Mul(a0, e3.throughput), e3.point.bsdfToCamera),
                             ConnectionFactor(e3.point.view, focalLength, rcpFilmArea))
  {
    var s1 := VertexSamples(a0, e1.point, e1.throughput, focalLength, rcpFilmArea);
    var s2 := VertexSamples(a0, e2.point, e2.throughput, focalLength, rcpFilmArea);
    var s3 := VertexSamples(a0, e3.point, e3.throughput, focalLength, rcpFilmArea);
    var s12 := LogSamples(a0, [e1, e2], focalLength, rcpFilmArea);
    assert s12 == s1 + s2 by {
      assert [e1] + [e2] == [e1, e2];
      LogSamplesDistribute(a0, [e1], [e2], focalLength, rcpFilmArea);
      LogSamplesOfOne(a0, e1, focalLength, rcpFilmArea);
      LogSamplesOfOne(a0, e2, focalLength, rcpFilmArea);
    }
    assert LogSamples(a0, [e1, e2, e3], focalLength, rcpFilmArea) == s12 + s3 by {
      assert [e1, e2] + [e3] == [e1, e2, e3];
      LogSamplesDistribute(a0, [e1, e2], [e3], focalLength, rcpFilmArea);
      LogSamplesOfOne(a0, e3, focalLength, rcpFilmArea);
    }
    assert |s1| == 1 && |s2| == 1 && |s3| == 1;
    assert (s12 + s3)[2] == s3[0];
  }

  /**
   * Channel i of the two third-sample colours: when the as-written one carries
   * an extra factor t1·t2 other than 1 on top of a corrected one that is not
   * zero, the two differ.
   */
  lemma ThirdColorsDiffer(asWritten: Spectrum, corrected: Spectrum, a0: Spectrum, t1: Spectrum, t2: Spectrum,
                          t3: Spectrum, b: Spectrum, c: real, i: nat)
    requires i < Channels
    requires asWritten == Scale(Mul(Mul(Mul(Mul(a0, t1), t2), t3), b), c)
    requires corrected == Scale(Mul(Mul(a0, t3), b), c)
    requires corrected[i] != 0.0 && Mul(t1, t2)[i] != 1.0
    ensures asWritten[i] != corrected[i]
  {
    assert asWritten[i] == Mul(t1, t2)[i] * corrected[i] by {
      assert Mul(t1, t2)[i] == t1[i] * t2[i];
      assert corrected[i] == a0[i] * t3[i] * b[i] * c;
      RegroupProduct(a0[i], t1[i], t2[i], t3[i], b[i], c);
    }
    ScaledByOtherThanOne(Mul(t1, t2)[i], corrected[i]);
  }

  /**
   * The visitor as written multiplies its weight by the cumulative throughput
   * at every vertex it sees, so the weight compounds: whenever the earlier
   * vertices' throughputs do not multiply to 1, the third seen vertex's sample
   * differs from the particle's flux there, which the corrected callback gives.
   * (The first callback always reports throughput 1, so a first bounce whose
   * BSDF value over its probability is not 1 is enough.)
   */
  lemma CompoundedWeightCounterexample(a0: Spectrum, e1: Event, e2: Event, e3: Event, focalLength: real, rcpFilmArea: real, i: nat)
    requires i < Channels
    requires e1.VertexVisited? && e2.VertexVisited? && e3.VertexVisited?
    requires Visible(e1.point.view) && Visible(e2.point.view) && Visible(e3.point.view)
    requires Scale(Mul(Mul(a0, e3.throughput), e3.point.bsdfToCamera), ConnectionFactor(e3.point.view, focalLength, rcpFilmArea))[i] != 0.0
    requires Mul(e1.throughput, e2.throughput)[i] != 1.0
    ensures var asWritten := Replay(VisitorState(a0, []), [e1, e2, e3], focalLength, rcpFilmArea).samples;
      var corrected := LogSamples(a0, [e1, e2, e3], focalLength, rcpFilmArea);
      |asWritten| == 3 && |corrected| == 3 && asWritten[2].color[i] != corrected[2].color[i]
  {
    var asWritten := Replay(VisitorState(a0, []), [e1, e2, e3], focalLength, rcpFilmArea).samples;
    var corrected := LogSamples(a0, [e1, e2, e3], focalLength, rcpFilmArea);
    AsWrittenThreeVertices(a0, e1, e2, e3, focalLength, rcpFilmArea);
    CorrectedThreeVertices(a0, e1, e2, e3, focalLength, rcpFilmArea);
    ThirdColorsDiffer(asWritten[2].color, corrected[2].color, a0, e1.throughput, e2.throughput, e3.throughput,
                      e3.point.bsdfToCamera, ConnectionFactor(e3.point.view, focalLength, rcpFilmArea), i);
  }

  /** Two sample lists that agree in everything but colour: same length, positions and alpha. */
  predicate SameShape(s: seq<Sample>, t: seq<Sample>) {
    && |s| == |t|
    && forall i :: 0 <= i < |s| ==> s[i].position == t[i].position && s[i].alpha == t[i].alpha
  }

  lemma SameShapeAppend(s1: seq<Sample>, s2: seq<Sample>, t1: seq<Sample>, t2: seq<Sample>)
    requires SameShape(s1, t1) && SameShape(s2, t2)
    ensures SameShape(s1 + s2, t1 + t2)
  {
    forall i | 0 <= i < |s1 + s2|
      ensures (s1 + s2)[i].position == (t1 + t2)[i].position && (s1 + s2)[i].alpha == (t1 + t2)[i].alpha
    {
      if i >= |s1| {
        assert (s1 + s2)[i] == s2[i - |s1|] && (t1 + t2)[i] == t2[i - |t1|];
      }
    }
  }

  /**
   * The compounding weight changes colours only: the as-written visitor adds
   * exactly as many samples as the corrected one, at the same positions and
   * with the same alpha.
   */
  lemma {:induction false} AsWrittenShapeMatchesCorrected(a0: Spectrum, events: seq<Event>, focalLength: real, rcpFilmArea: real)
    ensures SameShape(Replay(VisitorState(a0, []), events, focalLength, rcpFilmArea).samples,
                      LogSamples(a0, events, focalLength, rcpFilmArea))
    decreases |events|
  {
    if |events| > 0 {
      var prefix := events[..|events| - 1];
      var e := events[|events| - 1];
      AsWrittenShapeMatchesCorrected(a0, prefix, focalLength, rcpFilmArea);
      var v := Replay(VisitorState(a0, []), prefix, focalLength, rcpFilmArea);
      var intended := EventSamples(a0, e, focalLength, rcpFilmArea);
      if e.VertexVisited? && Visible(e.point.view) {
        var added := ConnectionSamples(e.point.view, Mul(Mul(v.alpha, e.throughput), e.point.bsdfToCamera),
                                       focalLength, rcpFilmArea);
        assert SameShape(added, intended);
        SameShapeAppend(v.samples, added, LogSamples(a0, prefix, focalLength, rcpFilmArea), intended);
      } else {
        assert intended == [];
        assert LogSamples(a0, prefix, focalLength, rcpFilmArea) + intended == LogSamples(a0, prefix, focalLength, rcpFilmArea);
      }
    }
  }

  /** A light path gives as many samples, at the same places, as written and as corrected. */
  lemma PathSamplesAsWrittenShape(camera: Camera, p: Parameters, path: LightPath)
    requires WellFormed(path.script)
    ensures SameShape(PathSamplesAsWritten(camera, p, path), PathSamples(camera, p, path))
  {
    var alpha0 := InitialAlpha(path);
    var light := ConnectionSamples(path.lightVertex, alpha0, camera.focalLength, RcpFilmArea(camera));
    var events := LightWalk(p, path).events;
    AsWrittenShapeMatchesCorrected(alpha0, events, camera.focalLength, RcpFilmArea(camera));
    SameShapeAppend(light, Replay(VisitorState(alpha0, []), events, camera.focalLength, RcpFilmArea(camera)).samples,
                    light, LogSamples(alpha0, events, camera.focalLength, RcpFilmArea(camera)));
  }
}
