/**
 * The animated light path: the closed 13-point control polygon of
 * `utils::globals::bezier_path`, split into four cubic curves that share
 * endpoints, and the per-frame state machine of
 * `Application::updateBezierLightPosition`.
 *
 * The source keeps a float `timestep` advanced by 1/frameCount per frame.
 * Here the state holds the integer tick k, with timestep = k / frameCount
 * exactly; floating-point drift of the accumulated sum is not modelled.
 */
module BezierPath {
  import opened Common
  import opened Vec
  import opened Bezier

  /** Frames taken to traverse one cubic curve. */
  const FrameCount: nat := 120
  /** Number of cubic curves in the closed path. */
  const CurveCount: nat := 4
  /** Ticks in one full loop of the path: frameCount * curveCount. */
  const TicksPerLoop: nat := 480

  /** The control polygon, point by point: `control_point0` .. `control_point12`,
      the names the update reads, with the values of the live list. Points 3,
      6, 9 and 12 are shared between consecutive curves and the last one
      closes the loop. */
  const P0: Vec3 := Vec3(0.0, 1.0, 5.0)
  const P1: Vec3 := Vec3(4.0, 1.0, 5.0)
  const P2: Vec3 := Vec3(5.0, 1.0, 4.0)
  const P3: Vec3 := Vec3(5.0, 1.0, 0.0)
  const P4: Vec3 := Vec3(5.0, 1.0, -4.0)
  const P5: Vec3 := Vec3(4.0, 1.0, -5.0)
  const P6: Vec3 := Vec3(0.0, 1.0, -5.0)
  const P7: Vec3 := Vec3(-4.0, 1.0, -5.0)
  const P8: Vec3 := Vec3(-5.0, 1.0, -4.0)
  const P9: Vec3 := Vec3(-5.0, 1.0, 0.0)
  const P10: Vec3 := Vec3(-5.0, 1.0, 4.0)
  const P11: Vec3 := Vec3(-4.0, 1.0, 5.0)
  const P12: Vec3 := Vec3(0.0, 1.0, 5.0)

  /** `bezier_path`: the thirteen control points in order. */
  const ControlPoints: seq<Vec3> := [P0, P1, P2, P3, P4, P5, P6, P7, P8, P9, P10, P11, P12]

  /** The four control points of one cubic curve. */
  datatype Segment = Segment(p0: Vec3, p1: Vec3, p2: Vec3, p3: Vec3)

  /** Curve i of the path, with the four points the update's branch i passes
      to `cubicBezier`. */
  function SegmentAt(i: nat): Segment
    requires i < CurveCount
  {
    if i == 0 then Segment(P0, P1, P2, P3)
    else if i == 1 then Segment(P3, P4, P5, P6)
    else if i == 2 then Segment(P6, P7, P8, P9)
    else Segment(P9, P10, P11, P12)
  }

  /** Curve i reads control points 3i .. 3i+3 of the polygon. */
  lemma SegmentsReadPolygon(i: nat)
    requires i < CurveCount
    ensures SegmentAt(i) == Segment(ControlPoints[3 * i], ControlPoints[3 * i + 1],
                                    ControlPoints[3 * i + 2], ControlPoints[3 * i + 3])
  {
  }

  /** The point of a curve at local parameter t, by de Casteljau's
      construction; `EvaluateIsCubicBezier` shows it is the source's closed
      form. */
  function Evaluate(s: Segment, t: real): Vec3
  {
    DeCasteljau(t, [s.p0, s.p1, s.p2, s.p3])
  }

  /** Evaluating a curve is `cubicBezier` on its four control points. */
  lemma EvaluateIsCubicBezier(s: Segment, t: real)
    ensures Evaluate(s, t) == CubicBezier(t, s.p0, s.p1, s.p2, s.p3)
  {
    DeCasteljauIsCubicBezier(t, s.p0, s.p1, s.p2, s.p3);
  }

  /** A curve starts at its first control point and ends at its last. */
  lemma EvaluateEnds(s: Segment)
    ensures Evaluate(s, 0.0) == s.p0 && Evaluate(s, 1.0) == s.p3
  {
    DeCasteljauEnds([s.p0, s.p1, s.p2, s.p3]);
  }

  /** The polygon has 3*curveCount + 1 points, consecutive curves share an
      endpoint, and the last curve ends where the first begins: the path is
      closed and continuous. */
  lemma PathIsClosed()
    ensures |ControlPoints| == 3 * CurveCount + 1
    ensures ControlPoints[|ControlPoints| - 1] == ControlPoints[0]
    ensures forall i | 0 <= i < CurveCount - 1 :: SegmentAt(i).p3 == SegmentAt(i + 1).p0
    ensures SegmentAt(CurveCount - 1).p3 == SegmentAt(0).p0
    ensures TicksPerLoop == FrameCount * CurveCount
  {
  }

  /** The float timestep that tick k stands for. */
  function Timestep(tick: nat): real
  {
    tick as real / FrameCount as real
  }

  /**
   * Reference definition of the point the path passes through at tick k:
   * curve i = k div frameCount covers timesteps [i, i+1), and is evaluated
   * at the local parameter timestep - i.
   */
  function PathPoint(tick: nat): Vec3
    requires tick < TicksPerLoop
  {
    var i := tick / FrameCount;
    Evaluate(SegmentAt(i), Timestep(tick) - i as real)
  }

  /** The animator state: the path light's position and the tick. */
  datatype AnimState = AnimState(lightPos: Vec3, tick: nat)

  /** A curve of the path and the local parameter to evaluate it at. */
  datatype Selection = Selection(curve: nat, local: real)

  /**
   * The source's segment selection on a timestep: the first curve i whose
   * upper end i+1 is at least the timestep, at local parameter timestep - i.
   * A timestep past the last curve selects nothing.
   */
  function SelectCurve(ts: real): (r: Option<Selection>)
    ensures r.Some? <==> ts <= CurveCount as real
    ensures r.Some? ==> r.value.curve < CurveCount
    ensures r.Some? ==> r.value.local == ts - r.value.curve as real
    ensures r.Some? ==> ts <= r.value.curve as real + 1.0
    ensures r.Some? && 0 < r.value.curve ==> r.value.curve as real < ts
  {
    if ts <= 1.0 then Some(Selection(0, ts))
    else if ts <= 2.0 then Some(Selection(1, ts - 1.0))
    else if ts <= 3.0 then Some(Selection(2, ts - 2.0))
    else if ts <= 4.0 then Some(Selection(3, ts - 3.0))
    else None
  }

  /** The position the source computes for a tick; with no curve selected
      the previous position stays. */
  function SelectPosition(current: Vec3, tick: nat): Vec3
  {
    match SelectCurve(Timestep(tick))
    case Some(sel) => Evaluate(SegmentAt(sel.curve), sel.local)
    case None => current
  }

  /** The timestep advance: one more tick, back to 0 once a whole loop is
      reached. Ticks beyond the loop (which never arise) also reset. */
  function NextTick(tick: nat): (n: nat)
    ensures n < TicksPerLoop
    ensures tick < TicksPerLoop ==> n == (tick + 1) % TicksPerLoop
  {
    var next := tick + 1;
    if next >= TicksPerLoop then 0 else next
  }

  /** One frame of `updateBezierLightPosition`. */
  function UpdateBezierLightPosition(paused: bool, s: AnimState): (s': AnimState)
    ensures paused ==> s' == s
    ensures !paused ==> s'.tick < TicksPerLoop
    ensures !paused && s.tick < TicksPerLoop ==> s'.tick == (s.tick + 1) % TicksPerLoop
  {
    if paused then s
    else
      AnimState(SelectPosition(s.lightPos, s.tick), NextTick(s.tick))
  }

  /**
   * Ticks of the loop select a curve. At a join (a positive multiple of
   * frameCount) the source's `<=` tests pick the earlier curve at local
   * parameter 1; elsewhere they pick curve tick div frameCount.
   */
  lemma SelectionOfTick(tick: nat)
    requires tick < TicksPerLoop
    ensures var i := tick / FrameCount;
      SelectCurve(Timestep(tick)) ==
        if 0 < i && tick == i * FrameCount then Some(Selection(i - 1, 1.0))
        else Some(Selection(i, Timestep(tick) - i as real))
  {
    var i := tick / FrameCount;
    assert i * FrameCount <= tick < (i + 1) * FrameCount;
    assert i as real <= Timestep(tick) < i as real + 1.0;
  }

  /**
   * Where two curves meet, the source's tests pick the earlier curve at local
   * parameter 1 while the reference picks the later one at 0; the shared
   * control point makes both the same point. So the selected position is the
   * path point of the tick, taken BEFORE the tick advances.
   */
  lemma PositionFollowsPath(current: Vec3, tick: nat)
    requires tick < TicksPerLoop
    ensures SelectPosition(current, tick) == PathPoint(tick)
  {
    var i := tick / FrameCount;
    SelectionOfTick(tick);
    if 0 < i && tick == i * FrameCount {
      PathIsClosed();
      assert Timestep(tick) - i as real == 0.0;
      assert SegmentAt(i - 1).p3 == SegmentAt(i).p0;
      EvaluateEnds(SegmentAt(i - 1));
      EvaluateEnds(SegmentAt(i));
    }
  }

  /** Unpaused, a frame moves the light to the path point of the tick it
      starts from, before the tick advances. */
  lemma UpdateFollowsPath(s: AnimState)
    requires s.tick < TicksPerLoop
    ensures UpdateBezierLightPosition(false, s).lightPos == PathPoint(s.tick)
  {
    PositionFollowsPath(s.lightPos, s.tick);
  }

  /** The state after n applications of a frame function. */
  function Iterate(step: AnimState -> AnimState, s: AnimState, n: nat): AnimState
  {
    if n == 0 then s else step(Iterate(step, s, n - 1))
  }

  /** The state after n frames with the pause flag fixed. */
  function Run(paused: bool, s: AnimState, n: nat): AnimState
  {
    Iterate(x => UpdateBezierLightPosition(paused, x), s, n)
  }

  /** While paused, any number of frames leaves position and timestep
      exactly as they were. */
  lemma {:induction false} PausedRunIsFrozen(s: AnimState, n: nat)
    ensures Run(true, s, n) == s
  {
    if n > 0 {
      PausedRunIsFrozen(s, n - 1);
    }
  }

  /** Taking one step on the residue is taking one step on the number. */
  lemma SuccessorMod(a: nat)
    ensures NextTick(a % TicksPerLoop) == (a + 1) % TicksPerLoop
  {
    var q, r := a / TicksPerLoop, a % TicksPerLoop;
    assert a == q * TicksPerLoop + r;
    if r + 1 < TicksPerLoop {
      assert a + 1 == q * TicksPerLoop + (r + 1);
    } else {
      assert a + 1 == (q + 1) * TicksPerLoop;
    }
  }

  /** The tick after n unpaused frames, on the tick alone. */
  function Ticks(tick: nat, n: nat): nat
  {
    if n == 0 then tick else NextTick(Ticks(tick, n - 1))
  }

  /** Counting frames on the tick alone is counting modulo the loop. */
  lemma {:induction false} TicksAreModular(tick: nat, n: nat)
    requires tick < TicksPerLoop
    ensures Ticks(tick, n) == (tick + n) % TicksPerLoop
  {
    if n > 0 {
      TicksAreModular(tick, n - 1);
      SuccessorMod(tick + n - 1);
    }
  }

  /** An unpaused frame moves the tick on, whatever the position does. */
  lemma UpdateTick(s: AnimState)
    ensures UpdateBezierLightPosition(false, s).tick == NextTick(s.tick)
  {
  }

  /** Any frame function that advances the tick as `NextTick` does, iterated
      n times, advances it as n calls of `NextTick` do. */
  lemma {:induction false} IterateTicks(step: AnimState -> AnimState, s: AnimState, n: nat)
    requires forall x :: step(x).tick == NextTick(x.tick)
    ensures Iterate(step, s, n).tick == Ticks(s.tick, n)
  {
    if n > 0 {
      IterateTicks(step, s, n - 1);
    }
  }

  /** The tick after n unpaused frames does not depend on the positions
      computed on the way. */
  lemma RunFollowsTicks(s: AnimState, n: nat)
    ensures Run(false, s, n).tick == Ticks(s.tick, n)
  {
    var step := x => UpdateBezierLightPosition(false, x);
    forall x ensures step(x).tick == NextTick(x.tick) {
      UpdateTick(x);
    }
    IterateTicks(step, s, n);
  }

  /** Unpaused, n frames advance the tick by n modulo the loop length. */
  lemma RunAdvancesTick(s: AnimState, n: nat)
    requires s.tick < TicksPerLoop
    ensures Run(false, s, n).tick == (s.tick + n) % TicksPerLoop
  {
    RunFollowsTicks(s, n);
    TicksAreModular(s.tick, n);
  }

  lemma WrapOnce(a: nat)
    requires a < TicksPerLoop
    ensures (a + TicksPerLoop) % TicksPerLoop == a
  {
    assert a + TicksPerLoop == 1 * TicksPerLoop + a;
  }

  /** After frameCount * curveCount unpaused frames the timestep is back where
      it started; from 0 it has wrapped to 0. */
  lemma FullLoopWraps(s: AnimState)
    requires s.tick < TicksPerLoop
    ensures Run(false, s, FrameCount * CurveCount).tick == s.tick
  {
    var n := TicksPerLoop;
    assert n == FrameCount * CurveCount;
    RunAdvancesTick(s, n);
    WrapOnce(s.tick);
  }
}
