/**
 * The simulation half of one pass of the main loop: the path light moves,
 * then the hierarchy turns. By convention point light 0 is the light that
 * follows the Bézier path.
 */
module Animation {
  import opened Vec
  import opened Lights
  import opened Scene
  import opened BezierPath
  import opened Hierarchy

  datatype World = World(pointLights: seq<PointLight>, tick: nat, system: SolarSystem)

  predicate WellFormed(w: World)
  {
    |w.pointLights| > 0 && w.tick < TicksPerLoop && Valid(w.system)
  }

  /**
   * `updateBezierLightPosition` on the light list: only the position of
   * point light 0 is written, with the path point of the current tick, and
   * the tick advances modulo the loop; paused, nothing changes.
   */
  function MovePathLight(paused: bool, lights: seq<PointLight>, tick: nat): (r: (seq<PointLight>, nat))
    requires |lights| > 0 && tick < TicksPerLoop
    ensures |r.0| == |lights| && r.1 < TicksPerLoop
    ensures forall i | 1 <= i < |lights| :: r.0[i] == lights[i]
    ensures r.0[0] == lights[0].(position := r.0[0].position)
    ensures paused ==> r.0 == lights && r.1 == tick
    ensures !paused ==> r.0[0].position == PathPoint(tick) && r.1 == (tick + 1) % TicksPerLoop
  {
    var s := AnimState(lights[0].position, tick);
    var a := UpdateBezierLightPosition(paused, s);
    if paused then
      (lights[0 := lights[0].(position := a.lightPos)], a.tick)
    else
      UpdateFollowsPath(s);
      (lights[0 := lights[0].(position := a.lightPos)], a.tick)
  }

  /**
   * `updateBezierLightPosition` followed by `updateHierarchyTransform`, each
   * half frozen by its own pause switch; a well-formed world stays so.
   */
  function Step(cfg: RenderConfig, w: World): (w': World)
    requires WellFormed(w)
    ensures WellFormed(w')
    ensures (w'.pointLights, w'.tick) == MovePathLight(cfg.pauseBezierPath, w.pointLights, w.tick)
    ensures w'.system == UpdateHierarchyTransform(cfg.pauseHierarchyTransform, w.system)
  {
    var moved := MovePathLight(cfg.pauseBezierPath, w.pointLights, w.tick);
    World(moved.0, moved.1, UpdateHierarchyTransform(cfg.pauseHierarchyTransform, w.system))
  }

  /** The world after n steps under a fixed configuration. */
  function Steps(cfg: RenderConfig, w: World, n: nat): (w': World)
    requires WellFormed(w)
    ensures WellFormed(w')
  {
    if n == 0 then w else Step(cfg, Steps(cfg, w, n - 1))
  }

  /** One paused frame leaves the point lights and the tick alone. */
  lemma PausedStepFreezesLights(cfg: RenderConfig, w: World)
    requires WellFormed(w) && cfg.pauseBezierPath
    ensures Step(cfg, w).pointLights == w.pointLights && Step(cfg, w).tick == w.tick
  {
  }

  /** With the path paused, the point lights (in particular the path light's
      position) and the timestep are exactly as they were, however many
      frames pass. */
  lemma {:induction false} PausedPathFreezesLights(cfg: RenderConfig, w: World, n: nat)
    requires WellFormed(w) && cfg.pauseBezierPath
    ensures Steps(cfg, w, n).pointLights == w.pointLights
    ensures Steps(cfg, w, n).tick == w.tick
  {
    if n > 0 {
      PausedPathFreezesLights(cfg, w, n - 1);
      PausedStepFreezesLights(cfg, Steps(cfg, w, n - 1));
    }
  }
}
