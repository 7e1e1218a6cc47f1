# Lighting and animation core of a real-time OpenGL scene, in Dafny

The repository is an OpenGL/ImGui rendering demo. This project models the four
pieces of it that are plain logic rather than GPU plumbing, and proves what
they guarantee:

- **Attenuation lookup** (`attenuation.dfy`, `lights.dfy`). `getAttenuationCoefficient`
  maps a light's maximum distance to a (linear, quadratic) coefficient pair with
  a fixed twelve-breakpoint table. The model keeps the source's `if` chain and
  proves it equal to "the first bucket whose upper bound is at least the
  distance". The point and spot light constructors store the result.
- **Bézier light path** (`bezier.dfy`, `bezier_path.dfy`). `cubicBezier` is modelled
  over the reals. The 13-point closed control polygon is split into four
  cubic curves. `updateBezierLightPosition` is the per-frame state machine:
  pause check, curve selection, timestep advance and wrap. The float
  timestep is represented by an integer tick k in [0, frameCount·curveCount),
  standing for timestep = k / frameCount.
- **Transform hierarchy** (`transform.dfy`, `hierarchy.dfy`). `Transform::getGlobalTransform`
  walks the parent pointers and multiplies local matrices root-first.
  - Matrices are words over primitive transforms (translate, scale, rotate), a
    free monoid: the product is concatenation and the identity is the empty
    word. Every equation proved here therefore holds for real 4×4 matrices too.
  - Parent pointers are indices into an arena. Acyclicity is a precondition,
    witnessed by a rank that strictly increases from parent to child.
  - `initMeshes` builds the sun → planet → moon chain, and
    `updateHierarchyTransform` spins the planet and the moon each frame.
- **Light batching in `drawScene`** (`batching.dfy`). Point and spot lights are
  drawn in batches of `MAX_NUM_POINT_LIGHT` / `MAX_NUM_SPOT_LIGHT` (4). Every
  renderable is drawn once per batch, binding `min(M, N − idx)` lights. The
  directional (sun) pass runs only when `sunlight` is set. These are methods
  with loop invariants that return the sequence of draw calls the frame
  issues.
- `animation.dfy` composes the two per-frame updates, as the main loop calls
  them.

Shared vocabulary is in `common.dfy` (`Option`, `Min`), `vec.dfy` (`Vec3`) and
`scene.dfy` (`Renderable`, the global switches).

The Bézier path is evaluated with de Casteljau's construction (`Bezier.DeCasteljau`).
`Bezier.DeCasteljauIsCubicBezier` proves it equal to the source's closed form
for every t. Being recursive, the construction is only unfolded where a proof
asks for it.

## Model

| member | source | states |
|---|---|---|
| Attenuation.GetAttenuationCoefficient | src/utils.h:87-114 | the result is one of the thirteen coefficient pairs of the table, and both coefficients are strictly positive |
| Attenuation.BucketIndex | src/utils.h:87-113 | the bucket chosen for a distance is the first one whose breakpoint is at least the distance: every earlier breakpoint is below it, and the default bucket is chosen only past the last breakpoint |
| Attenuation.LookupFollowsTable | src/utils.h:87-113 | the source's if-chain returns exactly the table entry at the first breakpoint that is at least the distance, for every real distance |
| Attenuation.BucketsNonIncreasing | src/utils.h:88-113 | later buckets never have larger linear or quadratic coefficients |
| Attenuation.AttenuationNonIncreasing | src/utils.h:87-113 | a larger maximum distance never gives a larger coefficient, and both stay positive |
| Attenuation.AttenuationSamples | src/utils.h:88-113 | distance ≤ 7 gives (0.7, 1.8); exactly 3250 gives (0.0014, 0.000007); above 3250 gives the default (0.0001, 0.0000001); the default bucket is chosen iff the distance exceeds 3250 |
| Lights.MakePointLight | src/application.h:65-76 | the stored coefficients are `getAttenuationCoefficient(maxDistance)` and positive; position and colours are stored unchanged |
| Lights.MakeSpotLight | src/application.h:86-103 | the stored coefficients are `getAttenuationCoefficient(maxDistance)`; inner and outer cutoff angles are stored unchanged; the direction is the normalised argument |
| Bezier.CubicBezier | src/utils.h:116-119 | the curve starts at p0 (t = 0) and ends at p3 (t = 1) |
| Bezier.Bernstein | src/utils.h:117-118 | the four weights of the formula sum to 1 for every t, and are all non-negative for t in [0, 1] |
| Bezier.BezierIsBernsteinCombination | src/utils.h:116-119 | the curve point is the combination of the control points with those weights |
| Bezier.BezierInHull | src/utils.h:116-119 | for t in [0, 1] each coordinate of the curve point lies between the least and greatest of that coordinate over the control points |
| Bezier.DeCasteljauIsCubicBezier | src/utils.h:116-119 | three rounds of linear interpolation on four points give exactly the closed form, for every t |
| Bezier.DeCasteljauEnds | src/utils.h:116-119 | de Casteljau's construction returns the first control point at t = 0 and the last at t = 1, for a polygon of any length |
| BezierPath.PathIsClosed | src/utils.h:43-61 | the polygon has 3·curveCount + 1 = 13 points; consecutive curves share an endpoint; the last curve ends where the first begins; a loop is frameCount·curveCount ticks |
| BezierPath.SegmentsReadPolygon | src/application.cpp:444-451 | the four points the update passes for curve i are control points 3i .. 3i+3 |
| BezierPath.EvaluateIsCubicBezier | src/application.cpp:444-451 | evaluating a curve of the path is `cubicBezier` on its four control points |
| BezierPath.EvaluateEnds | src/utils.h:116-119 | each curve starts at its first control point and ends at its last |
| BezierPath.SelectCurve | src/application.cpp:444-451 | the `<=` chain picks a curve iff timestep ≤ curveCount; it picks the first curve i with timestep ≤ i + 1, at local parameter timestep − i |
| BezierPath.SelectionOfTick | src/application.cpp:444-451 | at a tick strictly inside curve i (or 0) the chain picks curve i; at a join k·frameCount it picks curve k − 1 at local parameter 1 |
| BezierPath.PositionFollowsPath | src/application.cpp:444-451 | the selected position is the reference path point of the current tick (curve tick div frameCount at timestep − i), joins included |
| BezierPath.NextTick | src/application.cpp:453-456 | the advanced tick is below frameCount·curveCount and is the successor modulo the loop length |
| BezierPath.UpdateBezierLightPosition | src/application.cpp:429-457 | paused: nothing changes; otherwise the tick stays below frameCount·curveCount and, from a tick inside the loop, is its successor modulo the loop |
| BezierPath.UpdateFollowsPath | src/application.cpp:441-451 | unpaused, the light moves to the path point of the tick the frame starts from, before the tick advances |
| BezierPath.PausedRunIsFrozen | src/application.cpp:431 | while paused, any number of frames leaves position and tick unchanged |
| BezierPath.TicksAreModular | src/application.cpp:453-456 | n advances of the tick from k give (k + n) mod frameCount·curveCount |
| BezierPath.IterateTicks | src/application.cpp:453-456 | any frame function that advances the tick as the update does reaches, after n frames, the n-th successor of the start tick, whatever it does to the position |
| BezierPath.RunFollowsTicks | src/application.cpp:429-457 | the tick after n unpaused frames does not depend on the positions computed on the way |
| BezierPath.RunAdvancesTick | src/application.cpp:453-456 | n unpaused frames advance the tick by n modulo the loop |
| BezierPath.FullLoopWraps | src/application.cpp:453-456 | after frameCount·curveCount unpaused frames the tick is back where it started (from 0, back to 0) |
| Transform.Chain | src/application.h:110-118 | the ancestor chain starts at a root, ends at the node itself, follows parent links, and every ancestor has a smaller rank |
| Transform.GlobalIsChainProduct | src/application.h:110-118 | the global transform is the product of the chain's local matrices, root first |
| Transform.GetGlobalTransform | src/application.h:110-118 | the pointer-walking loop computes the global transform and terminates on every acyclic arena; on a root the loop body never runs and the result is the root's own local matrix |
| Transform.SetLocal | src/application.cpp:463-464 | overwriting one local matrix leaves every other node and every parent link unchanged |
| Transform.SetLocalEffect | src/application.h:110-118 | after overwriting node k's local matrix, node j's global transform is unchanged if k is not on j's chain or the matrix is the old one |
| Transform.AncestorsUnaffected | src/application.h:112-115 | changing a node's local matrix never changes the global transform of any of its ancestors |
| Hierarchy.InitialWorldMatrices | src/application.cpp:43-58 | the initial world matrices are sun.local, sun.local·planet.local and sun.local·planet.local·moon.local |
| Hierarchy.InitSolarSystem | src/application.cpp:42-58 | appends sun, planet and moon after the existing renderables, which stay unchanged, so after n existing renderables the three handles are the slots n, n+1 and n+2; the transforms are the sun → planet → moon chain with the initial local matrices; the chain is well formed; each body's model matrix is its global transform; the sun carries a diffuse map and no normal map, the planet and moon carry neither; the moon's model matrix is translate(0,8,0)·scale(2)·translate(0,0,−4)·scale(½)·translate(0,2,0)·scale(½) |
| Hierarchy.MoonWorldMatrix | src/application.cpp:57-58 | the moon's world matrix is sun.local · planet.local · moon.local |
| Hierarchy.UpdateHierarchyTransform | src/application.cpp:459-468 | paused: nothing changes. Otherwise only the planet's and moon's local matrices are left-multiplied by their one-degree rotations. The planet's and moon's renderables differ from before only in their model matrices, recomputed from the updated chain; every other renderable and the sun's transform are unchanged. Consistency of all three model matrices is preserved |
| Hierarchy.UpdateMovesPlanetAndMoonOnly | src/application.cpp:459-468 | after an unpaused update the sun's world matrix is unchanged while the planet's and moon's world matrices change |
| Batching.BatchExists | src/application.cpp:256 | batch b is visited iff its start b·M is below the light count N |
| Batching.NumBatchesIsCeiling | src/application.cpp:256 | the loop visits ceil(N / M) batches; none when N = 0 |
| Batching.BatchSize | src/application.cpp:283-292 | every visited batch binds between 1 and M lights |
| Batching.LastBatchSize | src/application.cpp:283-292 | the last batch binds N mod M lights, or M when M divides N |
| Batching.LightBatchVisited | src/application.cpp:256 | the batch l div M of every light l < N is one the loop visits |
| Batching.EveryLightInOneBatch | src/application.cpp:284-285 | batch l div M is visited; light l is bound in batch b iff b = l div M, and there at slot l − b·M |
| Batching.BindSlots | src/application.cpp:283-290 | the slot loop stops after min(M, N − idx) slots, and slot j holds light idx + j |
| Batching.LightPasses | src/application.cpp:253-308 | one batch per start 0, M, 2M, … below N; each batch draws every renderable in order with that batch's lights and the renderable's map switches |
| Batching.BatchesBindOneToM | src/application.cpp:283-292 | every draw call of a batched pass binds between 1 and M lights |
| Batching.DirectionalPass | src/application.cpp:360-400 | with `sunlight` set each renderable is drawn once, in order, with its map switches and with MAX_NUM_DIR_LIGHT = 1 light bound, light 0; otherwise nothing is drawn |
| Batching.DepthPrePass | src/application.cpp:228-239 | every renderable is drawn once, in order |
| Batching.DrawScene | src/application.cpp:224-403 | ceil(N/4) point batches and ceil(S/4) spot batches, each binding 1..4 lights; draw r of point (spot) batch b is renderable r with its map switches and lights 4b .. 4b + min(4, N − 4b) − 1 bound; a directional pass only with `sunlight`, drawing each renderable with light 0; total lit draws = (point batches + spot batches)·R + directional draws |
| Animation.MovePathLight | src/application.cpp:429-457 | only point light 0's position is written: with the path paused lights and tick stay; otherwise it moves to the path point of the current tick and the tick advances modulo the loop |
| Animation.Step | src/application.cpp:483-484 | one pass of the main loop: the lights and tick are `updateBezierLightPosition` under `pauseBezierPath`, the hierarchy is `updateHierarchyTransform` under `pauseHierarchyTransform`; a well-formed world stays well formed |
| Animation.PausedPathFreezesLights | src/application.cpp:429-431 | with the path paused, any number of frames leaves every point light and the timestep unchanged |

## Left out

- All OpenGL and ImGui calls are not modelled: shader building, uniform upload, texture binding, depth and blend state, VAO/VBO setup, skybox and line drawing. A draw call is modelled as a record of the renderable, the bound light indices and the two map switches.
- The main loop, window and input callbacks, and `src/camera.cpp` are not modelled: they are I/O and float camera maths.
- Mesh, texture and image loading are not modelled: they are file I/O. `initLights`, `initBezierPath`, `initSkybox`, `initEnvironmentMapping`, `drawLightsAsPoints`, `drawBezierPath` and `drawSkybox` are setup or drawing with no logic beyond GL calls.
- `meshType`, `drawMode` and the `hierarchy_transform` orbit speeds are never read, so they are not modelled. The depth pre-pass draws every renderable whatever its draw mode. There is no reflective pass in this `drawScene`.
- The `useBlinnCorrection` and `viewPos` uniforms, the normal matrix (`inverseTranspose`) and the `cos` applied to spot cutoffs at upload are left out: they are per-draw float values with no effect on batching.
- BezierPath.UpdateBezierLightPosition: exact reals replace the float timestep. The drift of adding 1/frameCount in float arithmetic is not modelled, so the wrap happens at exactly frameCount·curveCount frames.
- BezierPath.UpdateBezierLightPosition reads the curves through the names `control_point0` .. `control_point12` (application.cpp:445-451). Their definitions are commented out in `src/utils.h:63-75`, so the file does not compile as written. The model gives those names the values of the live `control_points` list, which are the same values. `BezierPath.SegmentsReadPolygon` ties each curve to `control_points[3i .. 3i+3]`.
- The commented-out loop form at application.cpp:432-440 is not modelled. It has no `break`, so it would overwrite the position with the last matching curve (always curve 3) instead of the first. It therefore does not select the same curve as the live chain.
- Hierarchy.UpdateMovesPlanetAndMoonOnly: "changes" is proved for matrices as words. Numerically, 360 one-degree rotations return to the identity, so numeric matrices change only up to that period.
- Lights.MakeDirectionalLight: it only stores its arguments, with `glm::normalize` kept symbolic (`Normalized(v)`). No unit-length property is stated, so it has no row in the table.
- Transform.GetGlobalTransform: acyclicity of the parent pointers is a precondition, witnessed by a rank. The source assumes it and would loop forever on a cycle.
- Animation.MovePathLight and Animation.Step: they require at least one point light, as `m_pointLights[0]` does in the source. An empty light list is undefined behaviour there and is not modelled.
- The header declares `updateHierarchicalTransform` while the source defines `updateHierarchyTransform`, and `initEnvironmentMapping` uses an undeclared `m_mirrorFBO`. The model follows the definitions.
