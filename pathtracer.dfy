/**
 * The generic path tracer: an iterative random walk through a scene that calls
 * a visitor at every vertex and when the path escapes to the environment, and
 * returns the number of bounces taken.
 *
 * The scene is a pre-recorded script: element k is what the walk meets at its
 * k-th shading point (the intersector's answer), the random numbers and BSDF
 * sample drawn there, and the visitor's reply to the vertex callback. The
 * visitor callbacks the walk makes, and the rays it traces, are returned as an
 * event log.
 */
module PathTracing {
  import opened Optional
  import opened Spectra
  import opened Scene

  /** The unconditional ceiling on the number of bounces. */
  const HardPathLengthLimit: nat := 10000

  /** The uniform numbers and the BSDF sample drawn at one vertex. */
  datatype Draws = Draws(alphaSample: real, scatter: BsdfSample, rrSample: real)

  /** One shading point of the walk, what is drawn there and the visitor's reply. */
  datatype Step = Step(point: ShadingPoint, draws: Draws, visitorContinues: bool)

  predicate IsUnitSample(s: real) {
    0.0 <= s < 1.0
  }

  predicate ValidStep(step: Step) {
    && IsUnitSample(step.draws.alphaSample)
    && IsUnitSample(step.draws.rrSample)
    && ValidBsdfSample(step.draws.scatter)
  }

  /**
   * A finite scene: the last ray of the script escapes, so every walk through
   * it ends, whatever chain of alpha cutoffs it meets.
   */
  predicate WellFormed(script: seq<Step>) {
    && |script| > 0
    && !script[|script| - 1].point.hit
    && forall i :: 0 <= i < |script| ==> ValidStep(script[i])
  }

  /**
   * The tracer's settings: the scattering modes it accepts (the template's mode
   * mask), whether it transports importance (the adjoint flag, which only
   * reaches the BSDF), the path length from which Russian roulette applies
   * (0 = never) and the user bounce limit (0 = none).
   */
  datatype Config = Config(modesMask: set<Mode>, adjoint: bool, rrMinPathLength: nat, maxPathLength: nat)

  /** The walk's state: throughput, path length, and the previous bounce's mode and probability. */
  datatype State = State(throughput: Spectrum, pathLength: nat, mode: Mode, prob: Prob)

  /** A walk starts with unit throughput at length 1, as if leaving an ideal specular emitter. */
  function Start(): State {
    State(Uniform(1.0), 1, Specular, DiracDelta)
  }

  /** The visitor callbacks and the rays traced, in the order they happen. */
  datatype Event =
    | EnvironmentVisited(point: ShadingPoint, mode: Mode, throughput: Spectrum)
    | VertexVisited(point: ShadingPoint, mode: Mode, prob: Prob, throughput: Spectrum)
    | CutoffTraced
    | ScatterTraced(mode: Mode, prob: Prob)

  predicate IsCallback(e: Event) {
    e.EnvironmentVisited? || e.VertexVisited?
  }

  /** The reasons a walk ends. None of them is an error. */
  datatype Exit =
    | Missed
    | NoMaterial
    | NoSurfaceShader
    | NoBsdf
    | VisitorStopped
    | ModeRejected
    | RouletteKilled
    | UserLimitReached
    | HardLimitReached

  /** What one pass through the loop body does. */
  datatype StepResult =
    | Stop(exit: Exit, final: State, events: seq<Event>)
    | Retry
    | Continue(next: State, events: seq<Event>)

  datatype Outcome = Outcome(exit: Exit, final: State, events: seq<Event>)

  /** The sampled BSDF value divided by its probability, unless that is a Dirac delta. */
  function Transfer(b: BsdfSample): (v: Spectrum)
    requires ValidBsdfSample(b)
    ensures NonNegative(v)
    ensures b.prob.DiracDelta? ==> v == b.value
    ensures b.prob.Density? ==> forall i :: 0 <= i < Channels ==> v[i] * b.prob.value == b.value[i]
  {
    match b.prob
    case DiracDelta => b.value
    case Density(p) => Scale(b.value, 1.0 / p)
  }

  /** Probability that Russian roulette lets the path go on. */
  function ScatteringProbability(v: Spectrum): real {
    Min(MaxComponent(v), 1.0)
  }

  /** foundation's pass_rr: the uniform sample s falls below the survival probability. */
  predicate PassRussianRoulette(p: real, s: real) {
    s < p
  }

  predicate RouletteApplies(c: Config, pathLength: nat) {
    c.rrMinPathLength > 0 && pathLength >= c.rrMinPathLength
  }

  predicate AtUserLimit(c: Config, pathLength: nat) {
    c.maxPathLength > 0 && pathLength >= c.maxPathLength
  }

  /** Number of scattered rays in an event log. */
  function Scatters(events: seq<Event>): nat {
    if |events| == 0 then 0
    else Scatters(events[..|events| - 1]) + (if events[|events| - 1].ScatterTraced? then 1 else 0)
  }

  /** Number of per-vertex callbacks in an event log. */
  function VertexVisits(events: seq<Event>): nat {
    if |events| == 0 then 0
    else VertexVisits(events[..|events| - 1]) + (if events[|events| - 1].VertexVisited? then 1 else 0)
  }

  /** Number of alpha-cutoff rays in an event log. */
  function Cutoffs(events: seq<Event>): nat {
    if |events| == 0 then 0
    else Cutoffs(events[..|events| - 1]) + (if events[|events| - 1].CutoffTraced? then 1 else 0)
  }

  lemma {:induction false} CountsDistribute(a: seq<Event>, b: seq<Event>)
    ensures Scatters(a + b) == Scatters(a) + Scatters(b)
    ensures VertexVisits(a + b) == VertexVisits(a) + VertexVisits(b)
    ensures Cutoffs(a + b) == Cutoffs(a) + Cutoffs(b)
    decreases |b|
  {
    if |b| == 0 {
      assert a + b == a;
    } else {
      assert (a + b)[..|a + b| - 1] == a + b[..|b| - 1];
      CountsDistribute(a, b[..|b| - 1]);
    }
  }

  lemma CountsOfShortLogs(x: Event, y: Event)
    ensures Scatters([]) == 0 && VertexVisits([]) == 0 && Cutoffs([]) == 0
    ensures Scatters([x]) == (if x.ScatterTraced? then 1 else 0)
    ensures VertexVisits([x]) == (if x.VertexVisited? then 1 else 0)
    ensures Cutoffs([x]) == (if x.CutoffTraced? then 1 else 0)
    ensures Scatters([x, y]) == Scatters([x]) + Scatters([y])
    ensures VertexVisits([x, y]) == VertexVisits([x]) + VertexVisits([y])
    ensures Cutoffs([x, y]) == Cutoffs([x]) + Cutoffs([y])
  {
    assert [x][..0] == [];
    assert [x, y] == [x] + [y];
    CountsDistribute([x], [y]);
  }

  /**
   * One pass through the walk loop at shading point `step.point` in state `st`:
   * the walk stops, retries past an alpha cutoff, or scatters to the next point.
   */
  function Transition(c: Config, step: Step, st: State): (t: StepResult)
    requires ValidStep(step)
    ensures !step.point.hit ==> t.Stop?
  {
    var p := step.point;
    if !p.hit then
      Stop(Missed, st, [EnvironmentVisited(p, st.mode, st.throughput)])
    else if p.material.None? then
      Stop(NoMaterial, st, [])
    else if !p.material.value.hasSurfaceShader then
      Stop(NoSurfaceShader, st, [])
    else if p.alpha < 1.0 && step.draws.alphaSample >= p.alpha then
      Retry
    else if !p.material.value.hasBsdf then
      Stop(NoBsdf, st, [])
    else
      var visit := VertexVisited(p, st.mode, st.prob, st.throughput);
      var b := step.draws.scatter;
      if !step.visitorContinues then
        Stop(VisitorStopped, st, [visit])
      else if b.mode !in c.modesMask then
        Stop(ModeRejected, st.(mode := b.mode, prob := b.prob), [visit])
      else
        var v := Transfer(b);
        var t0 := Mul(st.throughput, v);
        var q := ScatteringProbability(v);
        var rr := RouletteApplies(c, st.pathLength);
        if rr && !PassRussianRoulette(q, step.draws.rrSample) then
          Stop(RouletteKilled, State(t0, st.pathLength, b.mode, b.prob), [visit])
        else
          var after := State(if rr then Scale(t0, 1.0 / q) else t0, st.pathLength, b.mode, b.prob);
          if AtUserLimit(c, st.pathLength) then
            Stop(UserLimitReached, after, [visit])
          else if st.pathLength >= HardPathLengthLimit then
            Stop(HardLimitReached, after, [visit])
          else
            Continue(after.(pathLength := st.pathLength + 1), [visit, ScatterTraced(b.mode, b.prob)])
  }

  /**
   * The rest of the walk from script position k in state st, after the events
   * already logged. Each pass consumes one element of the script.
   */
  function Walk(c: Config, script: seq<Step>, k: nat, st: State, events: seq<Event>): Outcome
    requires WellFormed(script) && k < |script|
    decreases |script| - k
  {
    match Transition(c, script[k], st)
    case Stop(exit, final, evs) => Outcome(exit, final, events + evs)
    case Retry => Walk(c, script, k + 1, st, events + [CutoffTraced])
    case Continue(next, evs) => Walk(c, script, k + 1, next, events + evs)
  }

  /** One unfolding of the walk: what the pass at position k does to the rest of it. */
  lemma WalkStep(c: Config, script: seq<Step>, k: nat, st: State, events: seq<Event>)
    requires WellFormed(script) && k < |script|
    ensures var t := Transition(c, script[k], st);
      && (t.Stop? ==> Walk(c, script, k, st, events) == Outcome(t.exit, t.final, events + t.events))
      && (t.Retry? ==> k + 1 < |script|
                       && Walk(c, script, k, st, events) == Walk(c, script, k + 1, st, events + [CutoffTraced]))
      && (t.Continue? ==> k + 1 < |script|
                          && Walk(c, script, k, st, events) == Walk(c, script, k + 1, t.next, events + t.events))
  {
  }

  /** The whole walk through a script. */
  function Run(c: Config, script: seq<Step>): Outcome
    requires WellFormed(script)
  {
    Walk(c, script, 0, Start(), [])
  }

  /**
   * The path tracer object. The visitor it holds in the source is represented
   * by the replies recorded in the script and by the event log.
   */
  class PathTracer {
    const modesMask: set<Mode>
    const adjoint: bool
    const rrMinPathLength: nat
    const maxPathLength: nat

    constructor (modesMask: set<Mode>, adjoint: bool, rrMinPathLength: nat, maxPathLength: nat)
      ensures this.modesMask == modesMask && this.adjoint == adjoint
      ensures this.rrMinPathLength == rrMinPathLength && this.maxPathLength == maxPathLength
    {
      this.modesMask := modesMask;
      this.adjoint := adjoint;
      this.rrMinPathLength := rrMinPathLength;
      this.maxPathLength := maxPathLength;
    }

    function Settings(): Config {
      Config(modesMask, adjoint, rrMinPathLength, maxPathLength)
    }

    /**
     * One pass through the body of trace's loop at a shading point, up to the
     * point where the next ray is traced: stop the path, pass through an
     * alpha-masked surface, or scatter with the new throughput, length, mode and
     * probability. The callbacks made and the ray to trace are in the result's events.
     */
    method ShadeVertex(step: Step, st: State) returns (r: StepResult)
      requires ValidStep(step)
      ensures r == Transition(Settings(), step, st)
    {
      var shadingPoint := step.point;
      var throughput := st.throughput;
      var pathLength := st.pathLength;

      // The ray escaped: report the environment and stop.
      if !shadingPoint.hit {
        return Stop(Missed, st, [EnvironmentVisited(shadingPoint, st.mode, throughput)]);
      }

      if shadingPoint.material.None? {
        return Stop(NoMaterial, st, []);
      }
      var material := shadingPoint.material.value;
      if !material.hasSurfaceShader {
        return Stop(NoSurfaceShader, st, []);
      }

      // Alpha masking: with probability 1 - alpha, go on through the surface
      // without counting a bounce.
      if shadingPoint.alpha < 1.0 {
        var s := step.draws.alphaSample;
        if s >= shadingPoint.alpha {
          return Retry;
        }
      }

      if !material.hasBsdf {
        return Stop(NoBsdf, st, []);
      }

      var visit := VertexVisited(shadingPoint, st.mode, st.prob, throughput);
      if !step.visitorContinues {
        return Stop(VisitorStopped, st, [visit]);
      }

      // Sample the BSDF.
      var sample := step.draws.scatter;
      var bsdfValue := sample.value;
      var bsdfProb := sample.prob;
      var bsdfMode := sample.mode;

      if bsdfMode !in modesMask {
        return Stop(ModeRejected, st.(mode := bsdfMode, prob := bsdfProb), [visit]);
      }

      if bsdfProb != DiracDelta {
        bsdfValue := Scale(bsdfValue, 1.0 / bsdfProb.value);
      }
      assert bsdfValue == Transfer(sample);
      throughput := Mul(throughput, bsdfValue);

      // Russian roulette.
      if rrMinPathLength > 0 && pathLength >= rrMinPathLength {
        var s := step.draws.rrSample;
        var scatteringProb := Min(MaxComponent(bsdfValue), 1.0);
        if !PassRussianRoulette(scatteringProb, s) {
          return Stop(RouletteKilled, State(throughput, pathLength, bsdfMode, bsdfProb), [visit]);
        }
        assert scatteringProb > 0.0;
        throughput := Scale(throughput, 1.0 / scatteringProb);
      }

      if maxPathLength > 0 && pathLength >= maxPathLength {
        return Stop(UserLimitReached, State(throughput, pathLength, bsdfMode, bsdfProb), [visit]);
      }
      // The hard limit; the source also logs a warning here.
      if pathLength >= HardPathLengthLimit {
        return Stop(HardLimitReached, State(throughput, pathLength, bsdfMode, bsdfProb), [visit]);
      }

      pathLength := pathLength + 1;
      return Continue(State(throughput, pathLength, bsdfMode, bsdfProb), [visit, ScatterTraced(bsdfMode, bsdfProb)]);
    }

    /**
     * Trace one path from the shading point script[0].point; returns the path
     * length and the visitor callbacks and rays of the walk.
     */
    method Trace(script: seq<Step>) returns (pathLength: nat, events: seq<Event>)
      requires WellFormed(script)
      ensures pathLength == Run(Settings(), script).final.pathLength
      ensures events == Run(Settings(), script).events
    {
      // The two reusable shading-point slots; `current` is the slot that holds
      // the point being shaded, or -1 while that is the caller's point.
      var shadingPoints := new ShadingPoint[2](_ => script[0].point);
      var shadingPointIndex := 0;
      var current := -1;
      var k := 0;

      var st := Start();
      events := [];

      while true
        invariant 0 <= k < |script|
        invariant shadingPointIndex == 0 || shadingPointIndex == 1
        invariant k == 0 ==> current == -1
        invariant k > 0 ==> current == 1 - shadingPointIndex && shadingPoints[current] == script[k].point
        invariant Run(Settings(), script) == Walk(Settings(), script, k, st, events)
        decreases |script| - k
      {
        var shadingPoint := if current == -1 then script[0].point else shadingPoints[current];
        assert shadingPoint == script[k].point;
        var r := ShadeVertex(Step(shadingPoint, script[k].draws, script[k].visitorContinues), st);
        assert Step(shadingPoint, script[k].draws, script[k].visitorContinues) == script[k];
        WalkStep(Settings(), script, k, st, events);
        match r {
          case Stop(_, final, callbacks) =>
            events := events + callbacks;
            st := final;
            break;
          case Retry =>
            // Trace a ray that continues in the same direction, past the surface.
            events := events + [CutoffTraced];
          case Continue(next, rays) =>
            // Trace the scattered ray.
            events := events + rays;
            st := next;
        }
        // The traced ray's hit goes into the slot that does not hold the current point.
        assert current != shadingPointIndex;
        shadingPoints[shadingPointIndex] := script[k + 1].point;
        current := shadingPointIndex;
        shadingPointIndex := 1 - shadingPointIndex;
        k := k + 1;
      }
      pathLength := st.pathLength;
    }

    /**
     * The overload that starts from a ray: the intersector's answer to that
     * ray is the script's first point, and the walk goes on from there.
     */
    method TraceRay(script: seq<Step>) returns (pathLength: nat, events: seq<Event>)
      requires WellFormed(script)
      ensures pathLength == Run(Settings(), script).final.pathLength
      ensures events == Run(Settings(), script).events
    {
      pathLength, events := Trace(script);
    }
  }
}
