/**
 * Hooke and Jeeves direct search ("Algorithm 178: Direct Search", Kaupe 1963,
 * with the Bell-Pike and Tomlin-Smith remarks), as the routines
 * `best_nearby` and `hooke` implement it in every language binding.
 *
 * The behaviour is first written as functions on values (Explore, Advance,
 * PatternMoves, Iteration, Run); the methods BestNearby and Hooke then do the
 * same work in place on arrays, as the sources do, and are proved to compute
 * exactly those functions. The properties of the search are lemmas about the
 * functions.
 */
module HookeJeeves {
  import opened Common

  // ---------------------------------------------------------------------------
  // Exploratory move (best_nearby)
  // ---------------------------------------------------------------------------

  /**
   * State of an exploratory move after some coordinates have been probed:
   * the scratch point `z`, the (possibly sign-flipped) steps, the running
   * best value and the number of objective evaluations made so far.
   */
  datatype Probe = Probe(z: seq<real>, delta: seq<real>, minf: real, evals: nat)

  /**
   * Probe coordinate `i`: try point[i] + delta[i]; on failure negate delta[i]
   * for good and try point[i] + delta[i] again; on a second failure put
   * point[i] back. Only a strictly smaller value is accepted.
   */
  function ProbeCoordinate(f: Objective, point: seq<real>, s: Probe, i: nat): (r: Probe)
    requires i < |point| == |s.z| == |s.delta|
    ensures |r.z| == |r.delta| == |point|
    ensures forall k :: 0 <= k < |point| && k != i ==> r.z[k] == s.z[k] && r.delta[k] == s.delta[k]
    ensures r.delta[i] == s.delta[i] || r.delta[i] == -s.delta[i]
    ensures r.minf <= s.minf
    ensures r.minf < s.minf ==> r.minf == f(r.z) && r.z == s.z[i := point[i] + r.delta[i]]
    ensures r.minf == s.minf ==> r.z == s.z[i := point[i]] && r.evals == s.evals + 2
    ensures s.evals + 1 <= r.evals <= s.evals + 2
  {
    var up := s.z[i := point[i] + s.delta[i]];
    if f(up) < s.minf then
      Probe(up, s.delta, f(up), s.evals + 1)
    else
      var flipped := s.delta[i := 0.0 - s.delta[i]];
      var down := s.z[i := point[i] + flipped[i]];
      if f(down) < s.minf then
        Probe(down, flipped, f(down), s.evals + 2)
      else
        Probe(s.z[i := point[i]], flipped, s.minf, s.evals + 2)
  }

  /** The exploratory move after coordinates 0 .. k-1, in that order. */
  function ExploreFirst(f: Objective, point: seq<real>, delta: seq<real>, prevBest: real, k: nat): (r: Probe)
    requires |delta| == |point| && k <= |point|
    ensures |r.z| == |r.delta| == |point|
    decreases k
  {
    if k == 0 then Probe(point, delta, prevBest, 0)
    else ProbeCoordinate(f, point, ExploreFirst(f, point, delta, prevBest, k - 1), k - 1)
  }

  /** The whole exploratory move: every coordinate, left to right. */
  function Explore(f: Objective, point: seq<real>, delta: seq<real>, prevBest: real): Probe
    requires |delta| == |point|
  {
    ExploreFirst(f, point, delta, prevBest, |point|)
  }

  // ---------------------------------------------------------------------------
  // The search (hooke)
  // ---------------------------------------------------------------------------

  /**
   * The loop state of `hooke`: the probe point, the base point, the steps,
   * the step length, the value at the base point, the value found by the
   * last exploration, the iteration count and the evaluation count.
   */
  datatype State = State(
    newx: seq<real>, xbefore: seq<real>, delta: seq<real>,
    steplength: real, fbefore: real, newf: real,
    iters: nat, evals: nat)

  predicate Shaped(s: State)
  {
    |s.newx| == |s.xbefore| == |s.delta|
  }

  /** The initial step of one coordinate: |x * rho|, or rho where that is 0. */
  function InitialStep(x: real, rho: real): (d: real)
    ensures d == 0.0 <==> rho == 0.0
    ensures rho > 0.0 ==> d > 0.0
  {
    if Abs(x * rho) == 0.0 then rho else Abs(x * rho)
  }

  /** The initial steps of all coordinates. */
  function InitialDelta(start: seq<real>, rho: real): (d: seq<real>)
    ensures |d| == |start|
  {
    seq(|start|, i requires 0 <= i < |start| => InitialStep(start[i], rho))
  }

  /** The state before the first iteration: one evaluation, at the start. */
  function Initial(f: Objective, start: seq<real>, rho: real): (s: State)
    ensures Shaped(s) && |s.xbefore| == |start|
    ensures s.fbefore == f(s.xbefore) && s.newf == s.fbefore && s.xbefore == start && s.newx == start
    ensures s.steplength == rho && s.iters == 0 && s.evals == 1
    ensures forall i :: 0 <= i < |start| ==> s.delta[i] == InitialStep(start[i], rho)
  {
    State(start, start, InitialDelta(start, rho), rho, f(start), f(start), 0, 1)
  }

  /**
   * The signs a pattern move gives the steps: negative where the last move
   * did not increase the coordinate, positive where it did.
   */
  function PatternDelta(delta: seq<real>, newx: seq<real>, xbefore: seq<real>): (d: seq<real>)
    requires |delta| == |newx| == |xbefore|
    ensures |d| == |delta|
    ensures forall i :: 0 <= i < |d| ==> Abs(d[i]) == Abs(delta[i])
    ensures forall i :: 0 <= i < |d| ==> (d[i] <= 0.0 <==> newx[i] <= xbefore[i] || delta[i] == 0.0)
  {
    seq(|delta|, i requires 0 <= i < |delta| =>
      if newx[i] <= xbefore[i] then 0.0 - Abs(delta[i]) else Abs(delta[i]))
  }

  /** The point reached by repeating the last displacement: 2 newx - xbefore. */
  function Extrapolate(newx: seq<real>, xbefore: seq<real>): (x: seq<real>)
    requires |newx| == |xbefore|
    ensures |x| == |newx|
    ensures forall i :: 0 <= i < |x| ==> x[i] - newx[i] == newx[i] - xbefore[i]
  {
    seq(|newx|, i requires 0 <= i < |newx| => newx[i] + newx[i] - xbefore[i])
  }

  /**
   * The `keep` test: some coordinate moved by more than half its step, so
   * the improvement is due to a real displacement.
   */
  predicate Significant(newx: seq<real>, xbefore: seq<real>, delta: seq<real>)
    requires |newx| == |xbefore| == |delta|
  {
    exists i :: 0 <= i < |newx| && Abs(newx[i] - xbefore[i]) > 0.5 * Abs(delta[i])
  }

  /** Every step multiplied by rho. */
  function Scale(delta: seq<real>, rho: real): (d: seq<real>)
    ensures |d| == |delta|
  {
    seq(|delta|, i requires 0 <= i < |delta| => delta[i] * rho)
  }

  /**
   * One pattern move: sign the steps toward the move, make the probe point
   * the new base point, extrapolate, and explore around the extrapolated
   * point against the value of the new base point.
   */
  function Advance(f: Objective, s: State): (r: State)
    requires Shaped(s)
    ensures Shaped(r) && |r.xbefore| == |s.xbefore|
    ensures r.steplength == s.steplength && r.iters == s.iters
  {
    var e := Explore(f, Extrapolate(s.newx, s.xbefore), PatternDelta(s.delta, s.newx, s.xbefore), s.newf);
    State(e.z, s.newx, e.delta, s.steplength, s.newf, e.minf, s.iters, s.evals + e.evals)
  }

  /**
   * The pattern-move loop: move while the last exploration improved on the
   * base value and `keep` holds. The source bounds this loop only by the
   * strictly falling base value; here at most `fuel` moves are made, and
   * None means that more were needed.
   */
  function PatternMoves(f: Objective, s: State, keep: bool, fuel: nat): (r: Option<State>)
    requires Shaped(s)
    ensures r.Some? ==> Shaped(r.value) && |r.value.xbefore| == |s.xbefore|
    ensures r.Some? ==> r.value.steplength == s.steplength && r.value.iters == s.iters
    decreases fuel
  {
    if !(s.newf < s.fbefore && keep) then Some(s)
    else if fuel == 0 then None
    else
      var a := Advance(f, s);
      if a.newf >= a.fbefore then Some(a)
      else PatternMoves(f, a, Significant(a.newx, a.xbefore, a.delta), fuel - 1)
  }

  /** The step shrink: when nothing improved, steplength and steps times rho. */
  function Shrink(s: State, rho: real, epsilon: real): State
  {
    if s.steplength >= epsilon && s.newf >= s.fbefore then
      s.(steplength := s.steplength * rho, delta := Scale(s.delta, rho))
    else s
  }

  /**
   * The start of an iteration: count it, and explore around the base point
   * against the base value.
   */
  function Begin(f: Objective, s: State): (r: State)
    requires Shaped(s)
    ensures Shaped(r) && |r.xbefore| == |s.xbefore|
    ensures r.steplength == s.steplength && r.iters == s.iters + 1
  {
    var e := Explore(f, s.xbefore, s.delta, s.fbefore);
    State(e.z, s.xbefore, e.delta, s.steplength, s.fbefore, e.minf, s.iters + 1, s.evals + e.evals)
  }

  /** One iteration of the outer loop. */
  function Iteration(f: Objective, s: State, rho: real, epsilon: real, fuel: nat): (r: Option<State>)
    requires Shaped(s)
    ensures r.Some? ==> Shaped(r.value) && |r.value.xbefore| == |s.xbefore| && r.value.iters == s.iters + 1
  {
    match PatternMoves(f, Begin(f, s), true, fuel)
    case None => None
    case Some(s2) => Some(Shrink(s2, rho, epsilon))
  }

  /** The outer loop: iterate while iters < itermax and steplength > epsilon. */
  function Run(f: Objective, s: State, rho: real, epsilon: real, itermax: int, fuel: nat): (r: Option<State>)
    requires Shaped(s)
    ensures r.Some? ==> Shaped(r.value) && |r.value.xbefore| == |s.xbefore|
    decreases itermax - s.iters
  {
    if s.iters < itermax && s.steplength > epsilon then
      match Iteration(f, s, rho, epsilon, fuel)
      case None => None
      case Some(s1) => Run(f, s1, rho, epsilon, itermax, fuel)
    else Some(s)
  }

  /** The search from a start point: the result of `hooke`. */
  function Search(f: Objective, start: seq<real>, rho: real, epsilon: real, itermax: int, fuel: nat): Option<State>
  {
    Run(f, Initial(f, start, rho), rho, epsilon, itermax, fuel)
  }

  // ---------------------------------------------------------------------------
  // Properties of the exploratory move
  // ---------------------------------------------------------------------------

  /** The value part of an exploration after k probes. */
  ghost predicate ValueInv(f: Objective, point: seq<real>, prevBest: real, r: Probe)
  {
    r.minf <= prevBest
    && ((r.minf == prevBest && r.z == point) || (r.minf < prevBest && r.minf == f(r.z)))
  }

  /** The coordinate part of an exploration after k probes. */
  ghost predicate StepInv(point: seq<real>, delta: seq<real>, k: nat, r: Probe)
    requires |delta| == |point| == |r.z| == |r.delta| && k <= |point|
  {
    && (forall i :: k <= i < |point| ==> r.z[i] == point[i] && r.delta[i] == delta[i])
    && (forall i :: 0 <= i < k ==> r.delta[i] == delta[i] || r.delta[i] == -delta[i])
    && (forall i :: 0 <= i < k ==> r.z[i] == point[i] || r.z[i] == point[i] + r.delta[i])
    && (forall i :: 0 <= i < k && delta[i] != 0.0 && r.z[i] == point[i] ==> r.delta[i] == -delta[i])
  }

  /** Probing coordinate k keeps the value part. */
  lemma ProbeKeepsValue(f: Objective, point: seq<real>, prevBest: real, s: Probe, k: nat)
    requires k < |point| == |s.z| == |s.delta|
    requires s.z[k] == point[k]
    requires ValueInv(f, point, prevBest, s)
    ensures ValueInv(f, point, prevBest, ProbeCoordinate(f, point, s, k))
  {
    var r := ProbeCoordinate(f, point, s, k);
    if r.minf == s.minf {
      assert r.z == s.z[k := point[k]] == s.z;
    }
  }

  /** Probing coordinate k extends the coordinate part from k to k + 1. */
  lemma ProbeKeepsSteps(f: Objective, point: seq<real>, delta: seq<real>, s: Probe, k: nat)
    requires |delta| == |point| == |s.z| == |s.delta| && k < |point|
    requires StepInv(point, delta, k, s)
    ensures StepInv(point, delta, k + 1, ProbeCoordinate(f, point, s, k))
  {
    var r := ProbeCoordinate(f, point, s, k);
    assert s.z[k] == point[k] && s.delta[k] == delta[k];
    assert r.delta[k] == delta[k] || r.delta[k] == -delta[k];
    assert r.z[k] == point[k] || r.z[k] == point[k] + r.delta[k];
    assert delta[k] != 0.0 && r.z[k] == point[k] ==> r.delta[k] == -delta[k];
  }

  /** The value part after the first k probes. */
  lemma {:induction false} ExploreFirstValue(f: Objective, point: seq<real>, delta: seq<real>, prevBest: real, k: nat)
    requires |delta| == |point| && k <= |point|
    ensures ValueInv(f, point, prevBest, ExploreFirst(f, point, delta, prevBest, k))
  {
    if k > 0 {
      ExploreFirstValue(f, point, delta, prevBest, k - 1);
      ExploreFirstUntouched(f, point, delta, prevBest, k - 1);
      var s := ExploreFirst(f, point, delta, prevBest, k - 1);
      ProbeKeepsValue(f, point, prevBest, s, k - 1);
      assert ExploreFirst(f, point, delta, prevBest, k) == ProbeCoordinate(f, point, s, k - 1);
    }
  }

  /** The coordinate part after the first k probes. */
  lemma {:induction false} ExploreFirstSteps(f: Objective, point: seq<real>, delta: seq<real>, prevBest: real, k: nat)
    requires |delta| == |point| && k <= |point|
    ensures StepInv(point, delta, k, ExploreFirst(f, point, delta, prevBest, k))
  {
    if k > 0 {
      ExploreFirstSteps(f, point, delta, prevBest, k - 1);
      var s := ExploreFirst(f, point, delta, prevBest, k - 1);
      ProbeKeepsSteps(f, point, delta, s, k - 1);
      assert ExploreFirst(f, point, delta, prevBest, k) == ProbeCoordinate(f, point, s, k - 1);
    }
  }

  /** Coordinate k is still the input's after the first k probes. */
  lemma ExploreFirstUntouched(f: Objective, point: seq<real>, delta: seq<real>, prevBest: real, k: nat)
    requires |delta| == |point| && k < |point|
    ensures ExploreFirst(f, point, delta, prevBest, k).z[k] == point[k]
  {
    ExploreFirstSteps(f, point, delta, prevBest, k);
  }

  /** Each of the first k probes costs one or two evaluations. */
  lemma {:induction false} ExploreFirstEvals(f: Objective, point: seq<real>, delta: seq<real>, prevBest: real, k: nat)
    requires |delta| == |point| && k <= |point|
    ensures k <= ExploreFirst(f, point, delta, prevBest, k).evals <= 2 * k
  {
    if k > 0 {
      ExploreFirstEvals(f, point, delta, prevBest, k - 1);
    }
  }

  /**
   * The value returned by best_nearby is never above prevBest; it is below
   * prevBest only when some probe succeeded, and then it is the objective at
   * the point written back; otherwise the point comes back unchanged.
   */
  lemma ExploreImproves(f: Objective, point: seq<real>, delta: seq<real>, prevBest: real)
    requires |delta| == |point|
    ensures var r := Explore(f, point, delta, prevBest);
      && r.minf <= prevBest
      && (r.minf < prevBest ==> r.minf == f(r.z))
      && (r.minf == prevBest ==> r.z == point)
  {
    ExploreFirstValue(f, point, delta, prevBest, |point|);
    ExploreFirstSteps(f, point, delta, prevBest, |point|);
  }

  /**
   * The full contract of best_nearby: ExploreImproves, and every step keeps
   * its magnitude and at most changes its sign; a moved coordinate moved by
   * exactly its (final) step; a coordinate that did not move comes back with
   * its step negated. It costs n to 2n evaluations.
   */
  lemma BestNearbyContract(f: Objective, point: seq<real>, delta: seq<real>, prevBest: real)
    requires |delta| == |point|
    ensures var r := Explore(f, point, delta, prevBest);
      && |r.z| == |r.delta| == |point|
      && r.minf <= prevBest
      && (r.minf < prevBest ==> r.minf == f(r.z))
      && (r.minf == prevBest ==> r.z == point)
      && (forall i :: 0 <= i < |point| ==> Abs(r.delta[i]) == Abs(delta[i]))
      && (forall i :: 0 <= i < |point| ==> r.delta[i] == delta[i] || r.delta[i] == -delta[i])
      && (forall i :: 0 <= i < |point| ==> r.z[i] == point[i] || r.z[i] == point[i] + r.delta[i])
      && (forall i :: 0 <= i < |point| && delta[i] != 0.0 && r.z[i] == point[i] ==> r.delta[i] == -delta[i])
      && |point| <= r.evals <= 2 * |point|
  {
    ExploreFirstValue(f, point, delta, prevBest, |point|);
    ExploreFirstSteps(f, point, delta, prevBest, |point|);
    ExploreFirstEvals(f, point, delta, prevBest, |point|);
  }

  // ---------------------------------------------------------------------------
  // Properties of the search
  // ---------------------------------------------------------------------------

  /**
   * fbefore is the objective at xbefore, and a value newf below fbefore is
   * the objective at newx.
   */
  ghost predicate Coherent(f: Objective, s: State)
  {
    s.fbefore == f(s.xbefore) && (s.newf < s.fbefore ==> s.newf == f(s.newx))
  }

  /**
   * The pattern-move loop keeps the values coherent and either stops at once
   * (its condition is false) or makes the base value strictly smaller.
   */
  lemma {:induction false} PatternMovesFacts(f: Objective, s: State, keep: bool, fuel: nat)
    requires Shaped(s) && Coherent(f, s)
    requires PatternMoves(f, s, keep, fuel).Some?
    ensures var r := PatternMoves(f, s, keep, fuel).value;
      && Coherent(f, r)
      && ((r == s && !(s.newf < s.fbefore && keep)) || r.fbefore < s.fbefore)
    decreases fuel
  {
    if s.newf < s.fbefore && keep {
      var a := Advance(f, s);
      var x := Extrapolate(s.newx, s.xbefore);
      ExploreImproves(f, x, PatternDelta(s.delta, s.newx, s.xbefore), s.newf);
      assert a.fbefore == s.newf == f(a.xbefore);
      assert Coherent(f, a);
      if a.newf < a.fbefore {
        PatternMovesFacts(f, a, Significant(a.newx, a.xbefore, a.delta), fuel - 1);
      }
    }
  }

  /** The start of an iteration keeps the base point and value and leaves them coherent. */
  lemma BeginFacts(f: Objective, s: State)
    requires Shaped(s) && s.fbefore == f(s.xbefore)
    ensures var s1 := Begin(f, s);
      Coherent(f, s1) && s1.xbefore == s.xbefore && s1.fbefore == s.fbefore && s1.steplength == s.steplength
  {
    ExploreImproves(f, s.xbefore, s.delta, s.fbefore);
  }

  /**
   * The step shrink after the pattern moves of an iteration: s2 is the
   * state after the moves from s1, which either stopped at once or lowered
   * the base value.
   */
  lemma ShrinkOutcome(s1: State, s2: State, rho: real, epsilon: real)
    requires s1.steplength > epsilon && s2.steplength == s1.steplength
    requires (s2 == s1 && !(s1.newf < s1.fbefore)) || s2.fbefore < s1.fbefore
    ensures var r := Shrink(s2, rho, epsilon);
      && r.xbefore == s2.xbefore && r.fbefore == s2.fbefore
      && (r.steplength == s1.steplength * rho || (r.steplength == s1.steplength && r.fbefore < s1.fbefore))
      && (r.fbefore == s1.fbefore ==> r.xbefore == s1.xbefore && r.steplength == s1.steplength * rho)
  {
  }

  /**
   * One iteration of `hooke`: the base value never rises, and either the
   * step length shrinks by rho or the base value strictly falls. If the base
   * value did not fall, the base point did not move and the steps shrank.
   */
  lemma IterationFacts(f: Objective, s: State, rho: real, epsilon: real, fuel: nat)
    requires Shaped(s) && s.fbefore == f(s.xbefore) && s.steplength > epsilon
    requires Iteration(f, s, rho, epsilon, fuel).Some?
    ensures var r := Iteration(f, s, rho, epsilon, fuel).value;
      && r.fbefore == f(r.xbefore)
      && r.fbefore <= s.fbefore
      && (r.steplength == s.steplength * rho || (r.steplength == s.steplength && r.fbefore < s.fbefore))
      && (r.fbefore == s.fbefore ==> r.xbefore == s.xbefore && r.steplength == s.steplength * rho)
  {
    var s1 := Begin(f, s);
    BeginFacts(f, s);
    var s2 := PatternMoves(f, s1, true, fuel).value;
    PatternMovesFacts(f, s1, true, fuel);
    ShrinkOutcome(s1, s2, rho, epsilon);
    assert Iteration(f, s, rho, epsilon, fuel).value == Shrink(s2, rho, epsilon);
  }

  /** The outer loop keeps fbefore = f(xbefore), never raises it, and stops as its guard says. */
  lemma {:induction false} RunFacts(f: Objective, s: State, rho: real, epsilon: real, itermax: int, fuel: nat)
    requires Shaped(s) && s.fbefore == f(s.xbefore)
    requires Run(f, s, rho, epsilon, itermax, fuel).Some?
    ensures var r := Run(f, s, rho, epsilon, itermax, fuel).value;
      && r.fbefore == f(r.xbefore)
      && r.fbefore <= s.fbefore
      && s.iters <= r.iters
      && (r.iters <= itermax || r.iters == s.iters)
      && !(r.iters < itermax && r.steplength > epsilon)
    decreases itermax - s.iters
  {
    if s.iters < itermax && s.steplength > epsilon {
      IterationFacts(f, s, rho, epsilon, fuel);
      var s1 := Iteration(f, s, rho, epsilon, fuel).value;
      RunFacts(f, s1, rho, epsilon, itermax, fuel);
    }
  }

  /**
   * The result of `hooke`: endpt is no worse than startpt, the iteration
   * count never exceeds itermax (it is 0 when itermax <= 0), and the loop
   * stopped because the count reached itermax or the step length fell to
   * epsilon.
   */
  lemma SearchResult(f: Objective, start: seq<real>, rho: real, epsilon: real, itermax: int, fuel: nat)
    requires Search(f, start, rho, epsilon, itermax, fuel).Some?
    ensures var r := Search(f, start, rho, epsilon, itermax, fuel).value;
      && |r.xbefore| == |start|
      && r.fbefore == f(r.xbefore) <= f(start)
      && (r.iters <= itermax || r.iters == 0)
      && (r.iters == itermax || r.steplength <= epsilon || (itermax < 0 && r.iters == 0))
  {
    RunFacts(f, Initial(f, start, rho), rho, epsilon, itermax, fuel);
  }

  /** A step length x after k shrinks by the factor rho. */
  function Shrunk(x: real, rho: real, k: nat): real
    decreases k
  {
    if k == 0 then x else Shrunk(x * rho, rho, k - 1)
  }

  /** One turn of the outer loop, when its guard holds and the iteration finishes. */
  lemma RunStep(f: Objective, s: State, rho: real, epsilon: real, itermax: int, fuel: nat)
    requires Shaped(s) && s.iters < itermax && s.steplength > epsilon
    requires Iteration(f, s, rho, epsilon, fuel).Some?
    ensures var s2 := Iteration(f, s, rho, epsilon, fuel).value;
      && s2.iters == s.iters + 1
      && Run(f, s, rho, epsilon, itermax, fuel) == Run(f, s2, rho, epsilon, itermax, fuel)
  {
  }

  /** Shrinking k times is shrinking once and then k - 1 times. */
  lemma ShrunkStep(x: real, y: real, rho: real, k: nat)
    requires k > 0 && y == x * rho
    ensures Shrunk(x, rho, k) == Shrunk(y, rho, k - 1)
  {
  }

  /**
   * On a constant objective no probe ever succeeds: an iteration leaves the
   * base point where it is and shrinks the step length.
   */
  lemma ConstantIteration(f: Objective, c: real, s: State, rho: real, epsilon: real, fuel: nat)
    requires Shaped(s) && s.fbefore == c && s.steplength > epsilon
    requires forall x :: f(x) == c
    ensures Iteration(f, s, rho, epsilon, fuel).Some?
    ensures var r := Iteration(f, s, rho, epsilon, fuel).value;
      r.xbefore == s.xbefore && r.fbefore == c && r.steplength == s.steplength * rho
  {
    ExploreImproves(f, s.xbefore, s.delta, s.fbefore);
    var s1 := Begin(f, s);
    assert s1.newf == c;
    assert PatternMoves(f, s1, true, fuel) == Some(s1);
  }

  /**
   * On a constant objective the outer loop never moves the base point and
   * only shrinks the step length, once per iteration, and no fuel bound is
   * ever reached.
   */
  lemma {:induction false} ConstantRun(f: Objective, c: real, s: State, rho: real, epsilon: real, itermax: int, fuel: nat)
    requires Shaped(s) && s.fbefore == c
    requires forall x :: f(x) == c
    ensures Run(f, s, rho, epsilon, itermax, fuel).Some?
    ensures var r := Run(f, s, rho, epsilon, itermax, fuel).value;
      && r.xbefore == s.xbefore && r.fbefore == c && s.iters <= r.iters
      && r.steplength == Shrunk(s.steplength, rho, r.iters - s.iters)
    decreases itermax - s.iters
  {
    if s.iters < itermax && s.steplength > epsilon {
      ConstantIteration(f, c, s, rho, epsilon, fuel);
      RunStep(f, s, rho, epsilon, itermax, fuel);
      var s2 := Iteration(f, s, rho, epsilon, fuel).value;
      ConstantRun(f, c, s2, rho, epsilon, itermax, fuel);
      var r := Run(f, s2, rho, epsilon, itermax, fuel).value;
      assert Run(f, s, rho, epsilon, itermax, fuel).value == r;
      ShrunkStep(s.steplength, s2.steplength, rho, r.iters - s.iters);
    }
  }

  /**
   * `hooke` on an objective that returns the same value everywhere (as the
   * Java command-line objective does for an unknown problem class) returns
   * the start point after shrinking the step length rho once per iteration.
   */
  lemma ConstantObjective(f: Objective, c: real, start: seq<real>, rho: real, epsilon: real, itermax: int, fuel: nat)
    requires forall x :: f(x) == c
    ensures Search(f, start, rho, epsilon, itermax, fuel).Some?
    ensures var r := Search(f, start, rho, epsilon, itermax, fuel).value;
      r.xbefore == start && r.steplength == Shrunk(rho, rho, r.iters)
  {
    ConstantRun(f, c, Initial(f, start, rho), rho, epsilon, itermax, fuel);
  }

  /** More fuel never changes a pattern-move loop that finished. */
  lemma {:induction false} PatternMovesFuel(f: Objective, s: State, keep: bool, fuel: nat, more: nat)
    requires Shaped(s) && fuel <= more
    requires PatternMoves(f, s, keep, fuel).Some?
    ensures PatternMoves(f, s, keep, more) == PatternMoves(f, s, keep, fuel)
    decreases fuel
  {
    if s.newf < s.fbefore && keep {
      var a := Advance(f, s);
      if a.newf < a.fbefore {
        var keep' := Significant(a.newx, a.xbefore, a.delta);
        PatternMovesFuel(f, a, keep', fuel - 1, more - 1);
      }
    }
  }

  /**
   * More fuel never changes a search that finished: the fuel bound only cuts
   * off searches, it never alters the result of one.
   */
  lemma {:induction false} RunFuel(f: Objective, s: State, rho: real, epsilon: real, itermax: int, fuel: nat, more: nat)
    requires Shaped(s) && fuel <= more
    requires Run(f, s, rho, epsilon, itermax, fuel).Some?
    ensures Run(f, s, rho, epsilon, itermax, more) == Run(f, s, rho, epsilon, itermax, fuel)
    decreases itermax - s.iters
  {
    if s.iters < itermax && s.steplength > epsilon {
      var s1 := Begin(f, s);
      PatternMovesFuel(f, s1, true, fuel, more);
      var t := Iteration(f, s, rho, epsilon, fuel).value;
      assert Iteration(f, s, rho, epsilon, more) == Some(t);
      RunFuel(f, t, rho, epsilon, itermax, fuel, more);
    }
  }

  // ---------------------------------------------------------------------------
  // The routines, in place on arrays
  // ---------------------------------------------------------------------------

  /**
   * One probe of best_nearby, in place on the scratch point `z` and the
   * steps: the body of its loop over the coordinates.
   */
  method ProbeInPlace(f: Objective, z: array<real>, delta: array<real>, point: array<real>, i: nat, minf: real, evals: nat)
    returns (minf': real, evals': nat)
    requires i < point.Length == z.Length == delta.Length
    requires z != delta && z != point && delta != point
    modifies z, delta
    ensures Probe(z[..], delta[..], minf', evals')
         == ProbeCoordinate(f, point[..], old(Probe(z[..], delta[..], minf, evals)), i)
  {
    ghost var s := Probe(z[..], delta[..], minf, evals);
    ghost var p := point[..];
    minf', evals' := minf, evals;
    z[i] := point[i] + delta[i];
    assert z[..] == s.z[i := p[i] + s.delta[i]];
    var ftmp := f(z[..]);
    evals' := evals' + 1;
    if ftmp < minf' {
      minf' := ftmp;
    } else {
      delta[i] := 0.0 - delta[i];
      assert delta[..] == s.delta[i := 0.0 - s.delta[i]];
      z[i] := point[i] + delta[i];
      assert z[..] == s.z[i := p[i] + delta[..][i]];
      ftmp := f(z[..]);
      evals' := evals' + 1;
      if ftmp < minf' {
        minf' := ftmp;
      } else {
        z[i] := point[i];
        assert z[..] == s.z[i := p[i]];
      }
    }
  }

  /**
   * best_nearby: explore around `point` with the steps `delta`, against
   * `prevBest`. The steps are updated in place (sign flips persist) and the
   * best point found is written back into `point`.
   */
  method BestNearby(f: Objective, delta: array<real>, point: array<real>, prevBest: real) returns (minf: real, evals: nat)
    requires delta.Length == point.Length && delta != point
    modifies delta, point
    ensures var r := Explore(f, old(point[..]), old(delta[..]), prevBest);
      point[..] == r.z && delta[..] == r.delta && minf == r.minf && evals == r.evals
  {
    var n := point.Length;
    ghost var p, d0 := point[..], delta[..];
    ghost var r := Explore(f, p, d0, prevBest);
    var z := new real[n];
    forall i | 0 <= i < n {
      z[i] := point[i];
    }
    assert z[..] == point[..] == p && delta[..] == d0;
    minf, evals := ExploreInPlace(f, z, delta, point, prevBest);
    assert z[..] == r.z && delta[..] == r.delta && minf == r.minf && evals == r.evals;
    forall i | 0 <= i < n {
      point[i] := z[i];
    }
    assert point[..] == z[..];
  }

  /**
   * The probing loop of best_nearby on the scratch point `z`, which starts
   * as a copy of `point`.
   */
  method ExploreInPlace(f: Objective, z: array<real>, delta: array<real>, point: array<real>, prevBest: real)
    returns (minf: real, evals: nat)
    requires z.Length == delta.Length == point.Length
    requires z != delta && z != point && delta != point
    requires z[..] == point[..]
    modifies z, delta
    ensures Probe(z[..], delta[..], minf, evals) == Explore(f, point[..], old(delta[..]), prevBest)
  {
    ghost var p, d0 := point[..], delta[..];
    minf := prevBest;
    evals := 0;
    for i := 0 to point.Length
      invariant Probe(z[..], delta[..], minf, evals) == ExploreFirst(f, p, d0, prevBest, i)
    {
      minf, evals := ProbeInPlace(f, z, delta, point, i, minf, evals);
    }
  }

  /** The sign-and-move step of a pattern move, coordinate by coordinate. */
  method PatternMove(delta: array<real>, newx: array<real>, xbefore: array<real>)
    requires delta.Length == newx.Length == xbefore.Length
    requires delta != newx && delta != xbefore && newx != xbefore
    modifies delta, newx, xbefore
    ensures delta[..] == PatternDelta(old(delta[..]), old(newx[..]), old(xbefore[..]))
    ensures xbefore[..] == old(newx[..])
    ensures newx[..] == Extrapolate(old(newx[..]), old(xbefore[..]))
  {
    ghost var d0, x0, b0 := delta[..], newx[..], xbefore[..];
    for i := 0 to newx.Length
      invariant forall j :: 0 <= j < i ==> delta[j] == PatternDelta(d0, x0, b0)[j]
      invariant forall j :: 0 <= j < i ==> xbefore[j] == x0[j] && newx[j] == Extrapolate(x0, b0)[j]
      invariant forall j :: i <= j < newx.Length ==> delta[j] == d0[j] && newx[j] == x0[j] && xbefore[j] == b0[j]
    {
      if newx[i] <= xbefore[i] {
        delta[i] := 0.0 - Abs(delta[i]);
      } else {
        delta[i] := Abs(delta[i]);
      }
      var tmp := xbefore[i];
      xbefore[i] := newx[i];
      newx[i] := newx[i] + newx[i] - tmp;
    }
  }

  /**
   * The `keep` test of `hooke`: true exactly when some coordinate moved by
   * more than half its step.
   */
  method SignificantDisplacement(newx: array<real>, xbefore: array<real>, delta: array<real>) returns (keep: bool)
    requires newx.Length == xbefore.Length == delta.Length
    ensures keep <==> Significant(newx[..], xbefore[..], delta[..])
  {
    keep := false;
    for i := 0 to newx.Length
      invariant !keep
      invariant forall j :: 0 <= j < i ==> Abs(newx[j] - xbefore[j]) <= 0.5 * Abs(delta[j])
    {
      keep := true;
      if Abs(newx[i] - xbefore[i]) > 0.5 * Abs(delta[i]) {
        assert newx[..][i] == newx[i] && xbefore[..][i] == xbefore[i] && delta[..][i] == delta[i];
        break;
      } else {
        keep := false;
      }
    }
  }

  /** The step shrink of `hooke`: every step multiplied by rho, in place. */
  method ScaleSteps(delta: array<real>, rho: real)
    modifies delta
    ensures delta[..] == Scale(old(delta[..]), rho)
  {
    ghost var scaled := Scale(delta[..], rho);
    forall i | 0 <= i < delta.Length {
      delta[i] := delta[i] * rho;
    }
    assert forall i :: 0 <= i < delta.Length ==> delta[i] == scaled[i];
  }

  /** The step shrink of `hooke` applied to the loop state in place. */
  method ShrinkInPlace(newx: array<real>, xbefore: array<real>, delta: array<real>,
                       steplength: real, fbefore: real, newf: real, iters: nat, evals: nat,
                       rho: real, epsilon: real)
    returns (steplength': real)
    requires newx != delta && xbefore != delta
    modifies delta
    ensures Snapshot(newx, xbefore, delta, steplength', fbefore, newf, iters, evals)
         == Shrink(old(Snapshot(newx, xbefore, delta, steplength, fbefore, newf, iters, evals)), rho, epsilon)
  {
    steplength' := steplength;
    if steplength >= epsilon && newf >= fbefore {
      steplength' := steplength * rho;
      ScaleSteps(delta, rho);
    }
  }

  /** The loop state of `hooke` held in its arrays and scalars. */
  ghost function Snapshot(newx: array<real>, xbefore: array<real>, delta: array<real>,
                          steplength: real, fbefore: real, newf: real, iters: nat, evals: nat): State
    reads newx, xbefore, delta
  {
    State(newx[..], xbefore[..], delta[..], steplength, fbefore, newf, iters, evals)
  }

  /**
   * One pass of the pattern-move loop body of `hooke`, in place: the
   * pattern move, then an exploration around the extrapolated point.
   */
  method PatternStep(f: Objective, newx: array<real>, xbefore: array<real>, delta: array<real>,
                     steplength: real, fbefore: real, newf: real, iters: nat, evals: nat)
    returns (fbefore': real, newf': real, evals': nat)
    requires newx.Length == xbefore.Length == delta.Length
    requires newx != xbefore && newx != delta && xbefore != delta
    modifies newx, xbefore, delta
    ensures Snapshot(newx, xbefore, delta, steplength, fbefore', newf', iters, evals')
         == Advance(f, old(Snapshot(newx, xbefore, delta, steplength, fbefore, newf, iters, evals)))
  {
    ghost var c := Snapshot(newx, xbefore, delta, steplength, fbefore, newf, iters, evals);
    PatternMove(delta, newx, xbefore);
    fbefore' := newf;
    var e;
    newf', e := BestNearby(f, delta, newx, fbefore');
    evals' := evals + e;
  }

  /**
   * The pattern-move loop of `hooke`, in place. `exhausted` is set when more
   * than `fuel` moves would be needed; otherwise the arrays and the returned
   * values are the state PatternMoves computes.
   */
  method PatternLoop(f: Objective, newx: array<real>, xbefore: array<real>, delta: array<real>,
                     steplength: real, fbefore: real, newf: real, iters: nat, evals: nat, fuel: nat)
    returns (fbefore': real, newf': real, evals': nat, exhausted: bool)
    requires newx.Length == xbefore.Length == delta.Length
    requires newx != xbefore && newx != delta && xbefore != delta
    modifies newx, xbefore, delta
    ensures var r := PatternMoves(f, old(Snapshot(newx, xbefore, delta, steplength, fbefore, newf, iters, evals)), true, fuel);
      && (exhausted <==> r.None?)
      && (r.Some? ==> Snapshot(newx, xbefore, delta, steplength, fbefore', newf', iters, evals') == r.value)
  {
    ghost var goal := PatternMoves(f, Snapshot(newx, xbefore, delta, steplength, fbefore, newf, iters, evals), true, fuel);
    fbefore', newf', evals' := fbefore, newf, evals;
    exhausted := false;
    var keep := true;
    var movesLeft: nat := fuel;
    while newf' < fbefore' && keep
      invariant PatternMoves(f, Snapshot(newx, xbefore, delta, steplength, fbefore', newf', iters, evals'), keep, movesLeft) == goal
      decreases movesLeft
    {
      if movesLeft == 0 {
        exhausted := true;
        return;
      }
      ghost var c := Snapshot(newx, xbefore, delta, steplength, fbefore', newf', iters, evals');
      fbefore', newf', evals' := PatternStep(f, newx, xbefore, delta, steplength, fbefore', newf', iters, evals');
      ghost var a := Advance(f, c);
      movesLeft := movesLeft - 1;
      if newf' >= fbefore' {
        assert goal == Some(a);
        break;
      }
      keep := SignificantDisplacement(newx, xbefore, delta);
      assert goal == PatternMoves(f, a, keep, movesLeft);
    }
  }

  /**
   * The start of an iteration of `hooke`, in place: copy the base point into
   * the probe point and explore around it against the base value.
   */
  method StartIteration(f: Objective, newx: array<real>, xbefore: array<real>, delta: array<real>,
                        steplength: real, fbefore: real, newf: real, iters: nat, evals: nat)
    returns (newf': real, evals': nat)
    requires newx.Length == xbefore.Length == delta.Length
    requires newx != xbefore && newx != delta && xbefore != delta
    modifies newx, delta
    ensures Snapshot(newx, xbefore, delta, steplength, fbefore, newf', iters + 1, evals')
         == Begin(f, old(Snapshot(newx, xbefore, delta, steplength, fbefore, newf, iters, evals)))
  {
    ghost var s := Snapshot(newx, xbefore, delta, steplength, fbefore, newf, iters, evals);
    forall i | 0 <= i < newx.Length {
      newx[i] := xbefore[i];
    }
    assert newx[..] == s.xbefore && delta[..] == s.delta;
    var e;
    newf', e := BestNearby(f, delta, newx, fbefore);
    evals' := evals + e;
  }

  /**
   * One iteration of the outer loop of `hooke`, in place: count it, explore
   * around the base point, run the pattern-move loop, and shrink the steps
   * if nothing improved.
   */
  method Iterate(f: Objective, newx: array<real>, xbefore: array<real>, delta: array<real>,
                 steplength: real, fbefore: real, newf: real, iters: nat, evals: nat,
                 rho: real, epsilon: real, fuel: nat)
    returns (steplength': real, fbefore': real, newf': real, iters': nat, evals': nat, exhausted: bool)
    requires newx.Length == xbefore.Length == delta.Length
    requires newx != xbefore && newx != delta && xbefore != delta
    modifies newx, xbefore, delta
    ensures var r := Iteration(f, old(Snapshot(newx, xbefore, delta, steplength, fbefore, newf, iters, evals)), rho, epsilon, fuel);
      && (exhausted <==> r.None?)
      && (r.Some? ==> Snapshot(newx, xbefore, delta, steplength', fbefore', newf', iters', evals') == r.value)
  {
    ghost var s := Snapshot(newx, xbefore, delta, steplength, fbefore, newf, iters, evals);
    iters' := iters + 1;
    newf', evals' := StartIteration(f, newx, xbefore, delta, steplength, fbefore, newf, iters, evals);
    ghost var moves := PatternMoves(f, Begin(f, s), true, fuel);
    fbefore', newf', evals', exhausted := PatternLoop(f, newx, xbefore, delta, steplength, fbefore, newf', iters', evals', fuel);
    steplength' := steplength;
    if exhausted {
      assert moves.None?;
      return;
    }
    assert moves == Some(Snapshot(newx, xbefore, delta, steplength', fbefore', newf', iters', evals'));
    steplength' := ShrinkInPlace(newx, xbefore, delta, steplength', fbefore', newf', iters', evals', rho, epsilon);
  }

  /** The set-up loop of `hooke`: both points start at startPt, the steps as InitialDelta says. */
  method InitArrays(startPt: array<real>, newx: array<real>, xbefore: array<real>, delta: array<real>, rho: real)
    requires startPt.Length == newx.Length == xbefore.Length == delta.Length
    requires newx != xbefore && newx != delta && xbefore != delta
    requires startPt != newx && startPt != xbefore && startPt != delta
    modifies newx, xbefore, delta
    ensures newx[..] == startPt[..] && xbefore[..] == startPt[..]
    ensures delta[..] == InitialDelta(startPt[..], rho)
  {
    ghost var start := startPt[..];
    for i := 0 to startPt.Length
      invariant forall j :: 0 <= j < i ==> newx[j] == start[j] && xbefore[j] == start[j]
      invariant forall j :: 0 <= j < i ==> delta[j] == InitialDelta(start, rho)[j]
    {
      newx[i] := startPt[i];
      xbefore[i] := startPt[i];
      delta[i] := Abs(startPt[i] * rho);
      if delta[i] == 0.0 {
        delta[i] := rho;
      }
      assert delta[i] == InitialStep(start[i], rho);
    }
  }

  /**
   * hooke: minimise f from `startPt`, writing the best point found into
   * `endPt` and returning the iteration count (and the number of objective
   * evaluations). It computes Search; `exhausted` is set, and `endPt` left
   * alone, only when a pattern-move loop needed more than `fuel` moves.
   */
  method Hooke(f: Objective, startPt: array<real>, endPt: array<real>, rho: real, epsilon: real, itermax: int, fuel: nat)
    returns (iters: nat, evals: nat, exhausted: bool)
    requires startPt.Length == endPt.Length
    modifies endPt
    ensures var r := Search(f, old(startPt[..]), rho, epsilon, itermax, fuel);
      && (exhausted <==> r.None?)
      && (r.Some? ==> endPt[..] == r.value.xbefore && iters == r.value.iters && evals == r.value.evals)
    ensures !exhausted ==> f(endPt[..]) <= f(old(startPt[..]))
    ensures !exhausted ==> iters <= itermax || iters == 0
  {
    var n := startPt.Length;
    ghost var start := startPt[..];
    var newx := new real[n];
    var xbefore := new real[n];
    var delta := new real[n];
    InitArrays(startPt, newx, xbefore, delta, rho);
    var steplength := rho;
    iters := 0;
    var fbefore := f(newx[..]);
    evals := 1;
    var newf := fbefore;
    ghost var goal := Search(f, start, rho, epsilon, itermax, fuel);
    assert newx[..] == start && xbefore[..] == start && delta[..] == InitialDelta(start, rho);
    assert Snapshot(newx, xbefore, delta, steplength, fbefore, newf, iters, evals) == Initial(f, start, rho);
    exhausted := false;

    while iters < itermax && steplength > epsilon
      invariant Run(f, Snapshot(newx, xbefore, delta, steplength, fbefore, newf, iters, evals), rho, epsilon, itermax, fuel) == goal
      decreases itermax - iters
    {
      steplength, fbefore, newf, iters, evals, exhausted :=
        Iterate(f, newx, xbefore, delta, steplength, fbefore, newf, iters, evals, rho, epsilon, fuel);
      if exhausted {
        return;
      }
    }

    forall i | 0 <= i < n {
      endPt[i] := xbefore[i];
    }
    SearchResult(f, start, rho, epsilon, itermax, fuel);
  }
}
