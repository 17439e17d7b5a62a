/**
 * What the path tracer guarantees about every walk: bounds on the path length,
 * when alpha cutoffs happen, how Russian roulette reweights the throughput,
 * and what the visitor is told at each callback.
 */
module PathTracingProperties {
  import opened Spectra
  import opened Scene
  import opened PathTracing
  import opened RealArith

  /** What one pass does to the path length and to the counts of the log. */
  lemma TransitionCounts(c: Config, step: Step, st: State)
    requires ValidStep(step)
    ensures var t := Transition(c, step, st);
      && (t.Stop? ==> t.final.pathLength == st.pathLength
                      && Scatters(t.events) == 0 && Cutoffs(t.events) == 0 && VertexVisits(t.events) <= 1)
      && (t.Continue? ==> t.next.pathLength == st.pathLength + 1
                          && st.pathLength < HardPathLengthLimit && !AtUserLimit(c, st.pathLength)
                          && Scatters(t.events) == 1 && Cutoffs(t.events) == 0 && VertexVisits(t.events) == 1)
  {
    var visit := VertexVisited(step.point, st.mode, st.prob, st.throughput);
    CountsOfShortLogs(visit, ScatterTraced(step.draws.scatter.mode, step.draws.scatter.prob));
    CountsOfShortLogs(EnvironmentVisited(step.point, st.mode, st.throughput), visit);
  }

  /**
   * The walk from any position keeps the path length one more than the number
   * of scattered rays, never visits more vertices than that, and never passes
   * either bounce limit.
   */
  lemma {:induction false} WalkLengths(c: Config, script: seq<Step>, k: nat, st: State, events: seq<Event>)
    requires WellFormed(script) && k < |script|
    requires st.pathLength == 1 + Scatters(events)
    requires VertexVisits(events) == Scatters(events)
    requires st.pathLength <= HardPathLengthLimit
    requires c.maxPathLength > 0 ==> st.pathLength <= c.maxPathLength
    ensures var o := Walk(c, script, k, st, events);
      && o.final.pathLength == 1 + Scatters(o.events)
      && VertexVisits(o.events) <= o.final.pathLength
      && o.final.pathLength <= HardPathLengthLimit
      && (c.maxPathLength > 0 ==> o.final.pathLength <= c.maxPathLength)
      && Cutoffs(o.events) >= Cutoffs(events)
    decreases |script| - k
  {
    var t := Transition(c, script[k], st);
    TransitionCounts(c, script[k], st);
    match t
    case Stop(exit, final, evs) =>
      CountsDistribute(events, evs);
    case Retry =>
      CountsDistribute(events, [CutoffTraced]);
      CountsOfShortLogs(CutoffTraced, CutoffTraced);
      WalkLengths(c, script, k + 1, st, events + [CutoffTraced]);
    case Continue(next, evs) =>
      CountsDistribute(events, evs);
      WalkLengths(c, script, k + 1, next, events + evs);
  }

  /**
   * A whole walk: its length is 1 plus the number of scattered rays, at least 1,
   * within the user limit when there is one and within the hard limit always,
   * and the visitor sees at most one vertex per bounce.
   */
  lemma PathLengthBounds(c: Config, script: seq<Step>)
    requires WellFormed(script)
    ensures var o := Run(c, script);
      && o.final.pathLength == 1 + Scatters(o.events)
      && 1 <= o.final.pathLength <= HardPathLengthLimit
      && (c.maxPathLength > 0 ==> o.final.pathLength <= c.maxPathLength)
      && VertexVisits(o.events) <= o.final.pathLength
  {
    CountsOfShortLogs(CutoffTraced, CutoffTraced);
    WalkLengths(c, script, 0, Start(), []);
  }

  /** With a bounce limit of 1 the walk never scatters and shades at most one vertex. */
  lemma SingleBounceLimit(c: Config, script: seq<Step>)
    requires WellFormed(script) && c.maxPathLength == 1
    ensures Run(c, script).final.pathLength == 1
    ensures Scatters(Run(c, script).events) == 0
    ensures VertexVisits(Run(c, script).events) <= 1
  {
    PathLengthBounds(c, script);
  }

  /** One pass retries exactly when an alpha-masked surface lets the ray through. */
  lemma RetryCondition(c: Config, step: Step, st: State)
    requires ValidStep(step)
    ensures Transition(c, step, st).Retry?
        <==> && step.point.hit
             && step.point.material.Some?
             && step.point.material.value.hasSurfaceShader
             && step.point.alpha < 1.0
             && step.draws.alphaSample >= step.point.alpha
  {
  }

  /** A fully transparent surface with a shader is always passed through. */
  lemma TransparentAlwaysRetries(c: Config, step: Step, st: State)
    requires ValidStep(step)
    requires step.point.hit && step.point.material.Some? && step.point.material.value.hasSurfaceShader
    requires step.point.alpha <= 0.0
    ensures Transition(c, step, st) == Retry
  {
  }

  /** A fully opaque surface is never passed through, whatever the alpha sample. */
  lemma OpaqueNeverRetries(c: Config, step: Step, st: State)
    requires ValidStep(step)
    requires step.point.alpha >= 1.0
    ensures !Transition(c, step, st).Retry?
  {
  }

  predicate Opaque(script: seq<Step>) {
    forall i :: 0 <= i < |script| ==> script[i].point.alpha >= 1.0
  }

  lemma {:induction false} WalkOpaque(c: Config, script: seq<Step>, k: nat, st: State, events: seq<Event>)
    requires WellFormed(script) && k < |script| && Opaque(script)
    ensures Cutoffs(Walk(c, script, k, st, events).events) == Cutoffs(events)
    decreases |script| - k
  {
    var t := Transition(c, script[k], st);
    TransitionCounts(c, script[k], st);
    OpaqueNeverRetries(c, script[k], st);
    match t
    case Stop(exit, final, evs) =>
      CountsDistribute(events, evs);
    case Continue(next, evs) =>
      CountsDistribute(events, evs);
      WalkOpaque(c, script, k + 1, next, events + evs);
  }

  /** In a scene without alpha masks no cutoff ray is ever traced. */
  lemma NoCutoffInOpaqueScene(c: Config, script: seq<Step>)
    requires WellFormed(script) && Opaque(script)
    ensures Cutoffs(Run(c, script).events) == 0
  {
    CountsOfShortLogs(CutoffTraced, CutoffTraced);
    WalkOpaque(c, script, 0, Start(), []);
  }

  /** A point without a material, a surface shader or a BSDF ends the walk with no callback. */
  lemma UnboundPointEndsSilently(c: Config, step: Step, st: State)
    requires ValidStep(step) && step.point.hit
    requires step.point.material.None? || !step.point.material.value.hasSurfaceShader
             || (!step.point.material.value.hasBsdf
                 && !(step.point.alpha < 1.0 && step.draws.alphaSample >= step.point.alpha))
    ensures var t := Transition(c, step, st); t.Stop? && t.events == [] && t.final == st
  {
  }

  /** Scaling by 1 / q and then by q gives back the spectrum. */
  lemma ReciprocalScaleUndone(t: Spectrum, q: real, scaled: Spectrum)
    requires q > 0.0 && scaled == Scale(t, 1.0 / q)
    ensures Scale(scaled, q) == t
  {
    forall i | 0 <= i < Channels
      ensures Scale(scaled, q)[i] == t[i]
    {
      DivideThenMultiply(t[i], q);
    }
  }

  /** The throughput a scattering pass goes on with, and the roulette test it passed. */
  lemma ContinuedThroughput(c: Config, step: Step, st: State)
    requires ValidStep(step)
    requires Transition(c, step, st).Continue?
    ensures var v := Transfer(step.draws.scatter);
      var q := ScatteringProbability(v);
      var rr := RouletteApplies(c, st.pathLength);
      && Transition(c, step, st).next.throughput == (if rr then Scale(Mul(st.throughput, v), 1.0 / q) else Mul(st.throughput, v))
      && (rr ==> PassRussianRoulette(q, step.draws.rrSample))
  {
  }

  /**
   * The reweighting itself: a throughput divided by a survival probability q
   * that a unit sample fell below gives back the unweighted one when times q.
   */
  lemma RouletteArithmetic(t0: Spectrum, q: real, sample: real, rr: bool, next: Spectrum)
    requires 0.0 <= sample && q <= 1.0
    requires rr ==> PassRussianRoulette(q, sample)
    requires next == (if rr then Scale(t0, 1.0 / q) else t0)
    ensures !rr ==> next == t0
    ensures rr ==> && 0.0 < q <= 1.0
                   && sample < q
                   && next == Scale(t0, 1.0 / q)
                   && Scale(next, q) == t0
  {
    if rr {
      ReciprocalScaleUndone(t0, q, next);
    }
  }

  /**
   * Russian roulette, when it applies and the path survives, divides the
   * throughput by the survival probability q, with 0 < q <= 1; otherwise the
   * throughput is only multiplied by the sampled BSDF value over its probability.
   * With roulette, q times the surviving throughput is the unweighted product, so
   * the estimate stays unbiased.
   */
  lemma RouletteReweighting(c: Config, step: Step, st: State)
    requires ValidStep(step)
    requires Transition(c, step, st).Continue?
    ensures var b := step.draws.scatter;
      var t0 := Mul(st.throughput, Transfer(b));
      var q := ScatteringProbability(Transfer(b));
      var next := Transition(c, step, st).next;
      && (!RouletteApplies(c, st.pathLength) ==> next.throughput == t0)
      && (RouletteApplies(c, st.pathLength) ==>
            && 0.0 < q <= 1.0
            && step.draws.rrSample < q
            && next.throughput == Scale(t0, 1.0 / q)
            && Scale(next.throughput, q) == t0)
  {
    var v := Transfer(step.draws.scatter);
    ContinuedThroughput(c, step, st);
    RouletteArithmetic(Mul(st.throughput, v), ScatteringProbability(v), step.draws.rrSample,
                       RouletteApplies(c, st.pathLength), Transition(c, step, st).next.throughput);
  }

  /** Once roulette applies, a vertex whose walk reaches the roulette is killed exactly when the sample misses q. */
  lemma RouletteKillCondition(c: Config, step: Step, st: State)
    requires ValidStep(step)
    requires var p := step.point;
      && p.hit && p.material.Some? && p.material.value.hasSurfaceShader && p.material.value.hasBsdf
      && !(p.alpha < 1.0 && step.draws.alphaSample >= p.alpha)
      && step.visitorContinues && step.draws.scatter.mode in c.modesMask
    ensures var t := Transition(c, step, st);
      (t.Stop? && t.exit == RouletteKilled)
        <==> (RouletteApplies(c, st.pathLength)
              && step.draws.rrSample >= ScatteringProbability(Transfer(step.draws.scatter)))
  {
  }

  /** A walk the visitor stops, or whose sampled mode is masked out, keeps its throughput and length. */
  lemma EarlyStopKeepsThroughput(c: Config, step: Step, st: State)
    requires ValidStep(step)
    ensures var t := Transition(c, step, st);
      (t.Stop? && (t.exit == VisitorStopped || t.exit == ModeRejected))
      ==> (t.final.throughput == st.throughput && t.final.pathLength == st.pathLength)
  {
  }

  /**
   * The mode and probability of the last scattered ray in a log, or those of
   * the ideal specular emitter the walk starts from when there is none.
   */
  function LastBounce(events: seq<Event>): (Mode, Prob) {
    if |events| == 0 then (Specular, DiracDelta)
    else if events[|events| - 1].ScatterTraced? then (events[|events| - 1].mode, events[|events| - 1].prob)
    else LastBounce(events[..|events| - 1])
  }

  /**
   * A callback made after the log `before` reports the previous bounce's mode
   * (and, for a vertex, its probability), a non-negative throughput, and unit
   * throughput while nothing has scattered yet.
   */
  predicate CallbackAgrees(e: Event, before: seq<Event>) {
    match e
    case VertexVisited(_, m, p, t) =>
      (m, p) == LastBounce(before) && NonNegative(t) && (Scatters(before) == 0 ==> t == Uniform(1.0))
    case EnvironmentVisited(_, m, t) =>
      m == LastBounce(before).0 && NonNegative(t) && (Scatters(before) == 0 ==> t == Uniform(1.0))
    case _ => true
  }

  predicate CallbacksConsistent(events: seq<Event>) {
    forall i :: 0 <= i < |events| ==> CallbackAgrees(events[i], events[..i])
  }

  /** The walk's state agrees with the log so far. */
  predicate StateAgrees(st: State, events: seq<Event>) {
    && (st.mode, st.prob) == LastBounce(events)
    && NonNegative(st.throughput)
    && (Scatters(events) == 0 ==> st.throughput == Uniform(1.0))
  }

  lemma AppendEvent(events: seq<Event>, e: Event)
    requires CallbacksConsistent(events) && CallbackAgrees(e, events)
    ensures CallbacksConsistent(events + [e])
    ensures LastBounce(events + [e]) == (if e.ScatterTraced? then (e.mode, e.prob) else LastBounce(events))
    ensures Scatters(events + [e]) == Scatters(events) + (if e.ScatterTraced? then 1 else 0)
  {
    var l := events + [e];
    assert l[..|l| - 1] == events;
    forall i | 0 <= i < |l|
      ensures CallbackAgrees(l[i], l[..i])
    {
      if i < |events| {
        assert l[..i] == events[..i];
      }
    }
  }

  /** A non-negative throughput stays non-negative through a non-negative BSDF value and the roulette's reweighting. */
  lemma SurvivorNonNegative(a: Spectrum, v: Spectrum, q: real, sample: real, rr: bool, next: Spectrum)
    requires NonNegative(a) && NonNegative(v) && 0.0 <= sample
    requires rr ==> PassRussianRoulette(q, sample)
    requires next == (if rr then Scale(Mul(a, v), 1.0 / q) else Mul(a, v))
    ensures NonNegative(next)
  {
    MulNonNegative(a, v);
    if rr {
      ScaleNonNegative(Mul(a, v), 1.0 / q);
    }
  }

  /** The shape of the log one pass appends, and the state it hands on. */
  lemma TransitionShape(c: Config, step: Step, st: State)
    requires ValidStep(step)
    ensures var t := Transition(c, step, st);
      var visit := VertexVisited(step.point, st.mode, st.prob, st.throughput);
      && (t.Stop? ==> t.events == [] || t.events == [visit]
                      || t.events == [EnvironmentVisited(step.point, st.mode, st.throughput)])
      && (t.Continue? ==> t.events == [visit, ScatterTraced(t.next.mode, t.next.prob)]
                          && (NonNegative(st.throughput) ==> NonNegative(t.next.throughput)))
  {
    var t := Transition(c, step, st);
    if t.Continue? && NonNegative(st.throughput) {
      var v := Transfer(step.draws.scatter);
      ContinuedThroughput(c, step, st);
      SurvivorNonNegative(st.throughput, v, ScatteringProbability(v), step.draws.rrSample,
                          RouletteApplies(c, st.pathLength), t.next.throughput);
    }
  }

  lemma StepKeepsAgreement(t: StepResult, p: ShadingPoint, st: State, events: seq<Event>)
    requires StateAgrees(st, events) && CallbacksConsistent(events)
    requires var visit := VertexVisited(p, st.mode, st.prob, st.throughput);
      && (t.Stop? ==> t.events == [] || t.events == [visit] || t.events == [EnvironmentVisited(p, st.mode, st.throughput)])
      && (t.Continue? ==> t.events == [visit, ScatterTraced(t.next.mode, t.next.prob)] && NonNegative(t.next.throughput))
    ensures t.Stop? ==> CallbacksConsistent(events + t.events)
    ensures t.Retry? ==> StateAgrees(st, events + [CutoffTraced]) && CallbacksConsistent(events + [CutoffTraced])
    ensures t.Continue? ==> StateAgrees(t.next, events + t.events) && CallbacksConsistent(events + t.events)
  {
    var visit := VertexVisited(p, st.mode, st.prob, st.throughput);
    match t
    case Stop(_, _, evs) =>
      if evs == [] {
        assert events + evs == events;
      } else {
        AppendEvent(events, evs[0]);
        assert evs == [evs[0]];
      }
    case Retry =>
      AppendEvent(events, CutoffTraced);
    case Continue(next, evs) =>
      AppendEvent(events, visit);
      AppendEvent(events + [visit], evs[1]);
      assert events + evs == events + [visit] + [evs[1]];
  }

  lemma TransitionKeepsAgreement(c: Config, step: Step, st: State, events: seq<Event>)
    requires ValidStep(step) && StateAgrees(st, events) && CallbacksConsistent(events)
    ensures var t := Transition(c, step, st);
      && (t.Stop? ==> CallbacksConsistent(events + t.events))
      && (t.Retry? ==> StateAgrees(st, events + [CutoffTraced]) && CallbacksConsistent(events + [CutoffTraced]))
      && (t.Continue? ==> StateAgrees(t.next, events + t.events) && CallbacksConsistent(events + t.events))
  {
    TransitionShape(c, step, st);
    StepKeepsAgreement(Transition(c, step, st), step.point, st, events);
  }

  lemma {:induction false} WalkCallbacks(c: Config, script: seq<Step>, k: nat, st: State, events: seq<Event>)
    requires WellFormed(script) && k < |script|
    requires StateAgrees(st, events) && CallbacksConsistent(events)
    ensures CallbacksConsistent(Walk(c, script, k, st, events).events)
    decreases |script| - k
  {
    var t := Transition(c, script[k], st);
    WalkStep(c, script, k, st, events);
    TransitionKeepsAgreement(c, script[k], st, events);
    if t.Retry? {
      WalkCallbacks(c, script, k + 1, st, events + [CutoffTraced]);
    } else if t.Continue? {
      WalkCallbacks(c, script, k + 1, t.next, events + t.events);
    }
  }

  /**
   * Every callback of a walk tells the visitor the mode (for a vertex, also the
   * probability) of the bounce that led there, or Specular and a Dirac delta
   * before the first bounce; and a non-negative throughput, which is exactly 1
   * until the first bounce.
   */
  lemma CallbacksSeePreviousBounce(c: Config, script: seq<Step>)
    requires WellFormed(script)
    ensures CallbacksConsistent(Run(c, script).events)
  {
    assert NonNegative(Uniform(1.0));
    WalkCallbacks(c, script, 0, Start(), []);
  }

  predicate NoEnvironmentVisit(events: seq<Event>) {
    forall i :: 0 <= i < |events| ==> !events[i].EnvironmentVisited?
  }

  predicate EndsWithEnvironmentVisit(events: seq<Event>) {
    |events| > 0 && events[|events| - 1].EnvironmentVisited?
  }

  /** Only a miss logs the environment callback, and then as the pass's one event. */
  lemma TransitionEnvironmentEvents(c: Config, step: Step, st: State)
    requires ValidStep(step)
    ensures var t := Transition(c, step, st);
      && (t.Stop? && t.exit == Missed ==> |t.events| == 1 && t.events[0].EnvironmentVisited?)
      && (t.Stop? && t.exit != Missed ==> NoEnvironmentVisit(t.events))
      && (t.Continue? ==> NoEnvironmentVisit(t.events))
  {
  }

  /** Appending a log without the environment callback keeps a log without it. */
  lemma NoEnvironmentVisitAppend(events: seq<Event>, more: seq<Event>)
    requires NoEnvironmentVisit(events) && NoEnvironmentVisit(more)
    ensures NoEnvironmentVisit(events + more)
  {
  }

  /** A walk's outcome logs the environment callback at most once, last, and exactly when the ray escaped. */
  predicate EnvironmentLast(o: Outcome) {
    && NoEnvironmentVisit(o.events[..|o.events| - if EndsWithEnvironmentVisit(o.events) then 1 else 0])
    && (o.exit == Missed <==> EndsWithEnvironmentVisit(o.events))
  }

  /** The log a stopping pass completes: the environment callback is last exactly when the ray escaped. */
  lemma EnvironmentAtStop(events: seq<Event>, more: seq<Event>, exit: Exit, final: State)
    requires NoEnvironmentVisit(events)
    requires exit == Missed ==> |more| == 1 && more[0].EnvironmentVisited?
    requires exit != Missed ==> NoEnvironmentVisit(more)
    ensures EnvironmentLast(Outcome(exit, final, events + more))
  {
    var l := events + more;
    if exit == Missed {
      assert l[..|l| - 1] == events;
    } else {
      NoEnvironmentVisitAppend(events, more);
      assert l[..|l|] == l;
    }
  }

  lemma {:induction false} WalkEnvironment(c: Config, script: seq<Step>, k: nat, st: State, events: seq<Event>)
    requires WellFormed(script) && k < |script| && NoEnvironmentVisit(events)
    ensures EnvironmentLast(Walk(c, script, k, st, events))
    decreases |script| - k
  {
    var t := Transition(c, script[k], st);
    WalkStep(c, script, k, st, events);
    TransitionEnvironmentEvents(c, script[k], st);
    if t.Stop? {
      EnvironmentAtStop(events, t.events, t.exit, t.final);
    } else if t.Retry? {
      NoEnvironmentVisitAppend(events, [CutoffTraced]);
      WalkEnvironment(c, script, k + 1, st, events + [CutoffTraced]);
    } else {
      NoEnvironmentVisitAppend(events, t.events);
      WalkEnvironment(c, script, k + 1, t.next, events + t.events);
    }
  }

  /**
   * The visitor's environment callback happens at most once, as the walk's last
   * event, and exactly when the walk ends because a ray escaped.
   */
  lemma EnvironmentVisitedLast(c: Config, script: seq<Step>)
    requires WellFormed(script)
    ensures var o := Run(c, script);
      && NoEnvironmentVisit(o.events[..|o.events| - if EndsWithEnvironmentVisit(o.events) then 1 else 0])
      && (o.exit == Missed <==> EndsWithEnvironmentVisit(o.events))
  {
    WalkEnvironment(c, script, 0, Start(), []);
  }
}
