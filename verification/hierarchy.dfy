/**
 * The sun / planet / moon hierarchy built by `Application::initMeshes` and
 * animated by `Application::updateHierarchyTransform`.
 */
module Hierarchy {
  import opened Common
  import opened Vec
  import opened Transform
  import opened Scene

  /** Arena slots of the three transforms; each is the parent of the next. */
  const SunNode: nat := 0
  const PlanetNode: nat := 1
  const MoonNode: nat := 2

  /** A rank witnessing that the sun -> planet -> moon chain is acyclic. */
  const ChainRank: seq<nat> := [0, 1, 2]

  /** The per-frame rotations: one degree about Y for the planet and about X
      for the moon. The orbit-speed settings are never read. */
  const PlanetSpin: Mat := [Rotate(1.0, Vec3(0.0, 1.0, 0.0))]
  const MoonSpin: Mat := [Rotate(1.0, Vec3(1.0, 0.0, 0.0))]

  /**
   * The three transforms with the indices of the renderables they drive
   * (the `sun`, `planet` and `moon` pointers into the renderable list).
   */
  datatype SolarSystem = SolarSystem(
    transforms: Arena,
    renderables: seq<Renderable>,
    sun: nat,
    planet: nat,
    moon: nat)

  predicate Valid(h: SolarSystem)
  {
    && |h.transforms| == 3
    && h.transforms[SunNode].parent == None
    && h.transforms[PlanetNode].parent == Some(SunNode)
    && h.transforms[MoonNode].parent == Some(PlanetNode)
    && h.sun < |h.renderables| && h.planet < |h.renderables| && h.moon < |h.renderables|
    && h.sun != h.planet && h.planet != h.moon && h.sun != h.moon
  }

  lemma ValidIsRanked(h: SolarSystem)
    requires Valid(h)
    ensures Ranked(h.transforms, ChainRank)
  {
  }

  /** Each of the three renderables holds the world matrix of its transform. */
  predicate Consistent(h: SolarSystem)
    requires Valid(h)
  {
    ValidIsRanked(h);
    && h.renderables[h.sun].modelMat == Global(h.transforms, ChainRank, SunNode)
    && h.renderables[h.planet].modelMat == Global(h.transforms, ChainRank, PlanetNode)
    && h.renderables[h.moon].modelMat == Global(h.transforms, ChainRank, MoonNode)
  }

  /** In a valid hierarchy the moon's world matrix is sun.local * planet.local * moon.local. */
  lemma MoonWorldMatrix(h: SolarSystem)
    requires Valid(h)
    ensures Ranked(h.transforms, ChainRank)
    ensures Global(h.transforms, ChainRank, MoonNode)
         == Mul(Mul(h.transforms[SunNode].local, h.transforms[PlanetNode].local),
                h.transforms[MoonNode].local)
  {
    ValidIsRanked(h);
    var t := h.transforms;
    assert Global(t, ChainRank, PlanetNode) == Mul(t[SunNode].local, t[PlanetNode].local);
  }

  /** The transforms `initMeshes` builds: the sun 8 units up and doubled in
      size, the planet 4 units from the sun and halved, the moon 2 units
      from the planet and halved again. */
  const SunLocal: Mat := Mul([Translate(Vec3(0.0, 8.0, 0.0))], [Scaling(Vec3(2.0, 2.0, 2.0))])
  const PlanetLocal: Mat := Mul([Translate(Vec3(0.0, 0.0, -4.0))], [Scaling(Vec3(0.5, 0.5, 0.5))])
  const MoonLocal: Mat := Mul([Translate(Vec3(0.0, 2.0, 0.0))], [Scaling(Vec3(0.5, 0.5, 0.5))])

  const InitialTransforms: Arena :=
    [Node(SunLocal, None), Node(PlanetLocal, Some(SunNode)), Node(MoonLocal, Some(PlanetNode))]

  lemma InitialWorldMatrices()
    ensures Ranked(InitialTransforms, ChainRank)
    ensures Global(InitialTransforms, ChainRank, SunNode) == SunLocal
    ensures Global(InitialTransforms, ChainRank, PlanetNode) == Mul(SunLocal, PlanetLocal)
    ensures Global(InitialTransforms, ChainRank, MoonNode) == Mul(Mul(SunLocal, PlanetLocal), MoonLocal)
  {
    assert Ranked(InitialTransforms, ChainRank);
    assert Global(InitialTransforms, ChainRank, PlanetNode) == Mul(SunLocal, PlanetLocal);
  }

  /**
   * The hierarchy part of `initMeshes`: after the renderables in `others`,
   * append the sun, planet and moon, each holding the world matrix of its
   * transform. The sun carries a diffuse texture; planet and moon carry none.
   */
  function InitSolarSystem(others: seq<Renderable>): (h: SolarSystem)
    ensures Valid(h) && Consistent(h)
    ensures |h.renderables| == |others| + 3
    ensures h.renderables[..|others|] == others
    ensures h.sun == |others| && h.planet == |others| + 1 && h.moon == |others| + 2
    ensures h.transforms == InitialTransforms
    ensures h.renderables[h.sun].hasDiffuseMap && !h.renderables[h.sun].hasNormalMap
    ensures forall r | r in {h.planet, h.moon} ::
              !h.renderables[r].hasDiffuseMap && !h.renderables[r].hasNormalMap
    ensures h.renderables[h.moon].modelMat
         == [Translate(Vec3(0.0, 8.0, 0.0)), Scaling(Vec3(2.0, 2.0, 2.0)),
             Translate(Vec3(0.0, 0.0, -4.0)), Scaling(Vec3(0.5, 0.5, 0.5)),
             Translate(Vec3(0.0, 2.0, 0.0)), Scaling(Vec3(0.5, 0.5, 0.5))]
  {
    InitialWorldMatrices();
    var n := |others|;
    var rs := others + [Renderable(SunLocal, true, false),
                        Renderable(Mul(SunLocal, PlanetLocal), false, false),
                        Renderable(Mul(Mul(SunLocal, PlanetLocal), MoonLocal), false, false)];
    assert rs[..n] == others;
    var h := SolarSystem(InitialTransforms, rs, n, n + 1, n + 2);
    assert rs[n + 2].modelMat == Mul(Mul(SunLocal, PlanetLocal), MoonLocal);
    h
  }

  /**
   * One frame of `updateHierarchyTransform`: unless paused, left-multiply the
   * planet's local matrix by the Y spin and the moon's by the X spin, then
   * store the new world matrices of planet and moon, planet first. The sun's
   * transform and every other renderable are left alone.
   */
  function UpdateHierarchyTransform(paused: bool, h: SolarSystem): (h': SolarSystem)
    requires Valid(h)
    ensures Valid(h') && Ranked(h'.transforms, ChainRank)
    ensures |h'.renderables| == |h.renderables|
    ensures h'.sun == h.sun && h'.planet == h.planet && h'.moon == h.moon
    ensures paused ==> h' == h
    ensures !paused ==> h'.transforms[SunNode] == h.transforms[SunNode]
    ensures !paused ==> h'.transforms[PlanetNode].local == Mul(PlanetSpin, h.transforms[PlanetNode].local)
    ensures !paused ==> h'.transforms[MoonNode].local == Mul(MoonSpin, h.transforms[MoonNode].local)
    ensures !paused ==> h'.renderables[h.planet].modelMat == Global(h'.transforms, ChainRank, PlanetNode)
    ensures !paused ==> h'.renderables[h.moon].modelMat == Global(h'.transforms, ChainRank, MoonNode)
    ensures forall r | 0 <= r < |h.renderables| && r != h.planet && r != h.moon ::
              h'.renderables[r] == h.renderables[r]
    ensures !paused ==>
              h'.renderables[h.planet] == h.renderables[h.planet].(modelMat := Global(h'.transforms, ChainRank, PlanetNode))
    ensures !paused ==>
              h'.renderables[h.moon] == h.renderables[h.moon].(modelMat := Global(h'.transforms, ChainRank, MoonNode))
    ensures Consistent(h) ==> Consistent(h')
  {
    ValidIsRanked(h);
    if paused then h
    else
      var t := h.transforms;
      var t1 := SetLocal(t, PlanetNode, Mul(PlanetSpin, t[PlanetNode].local));
      var t2 := SetLocal(t1, MoonNode, Mul(MoonSpin, t1[MoonNode].local));
      assert Ranked(t2, ChainRank);
      var rs := h.renderables;
      var rs1 := rs[h.planet := rs[h.planet].(modelMat := Global(t2, ChainRank, PlanetNode))];
      var rs2 := rs1[h.moon := rs1[h.moon].(modelMat := Global(t2, ChainRank, MoonNode))];
      assert Global(t2, ChainRank, SunNode) == Global(t, ChainRank, SunNode);
      h.(transforms := t2, renderables := rs2)
  }

  /**
   * Unpaused, a frame moves planet and moon in the world but not the sun:
   * the sun's world matrix is unchanged while the planet's and the moon's
   * both change.
   */
  lemma UpdateMovesPlanetAndMoonOnly(h: SolarSystem)
    requires Valid(h)
    ensures Ranked(h.transforms, ChainRank)
    ensures Global(UpdateHierarchyTransform(false, h).transforms, ChainRank, SunNode)
         == Global(h.transforms, ChainRank, SunNode)
    ensures Global(UpdateHierarchyTransform(false, h).transforms, ChainRank, PlanetNode)
         != Global(h.transforms, ChainRank, PlanetNode)
    ensures Global(UpdateHierarchyTransform(false, h).transforms, ChainRank, MoonNode)
         != Global(h.transforms, ChainRank, MoonNode)
  {
    var h' := UpdateHierarchyTransform(false, h);
    ValidIsRanked(h);
    MoonWorldMatrix(h);
    MoonWorldMatrix(h');
    var t, t' := h.transforms, h'.transforms;
    assert Global(t', ChainRank, PlanetNode) == Mul(t'[SunNode].local, t'[PlanetNode].local);
    assert Global(t, ChainRank, PlanetNode) == Mul(t[SunNode].local, t[PlanetNode].local);
    assert |Global(t', ChainRank, PlanetNode)| == |Global(t, ChainRank, PlanetNode)| + 1;
    assert |Global(t', ChainRank, MoonNode)| == |Global(t, ChainRank, MoonNode)| + 2;
  }
}
