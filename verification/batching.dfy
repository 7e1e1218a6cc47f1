/**
 * The draw loop of `Application::drawScene`, reduced to which renderable is
 * drawn with which lights bound, in which order. All graphics state
 * (shaders, blending, depth tests, uniform upload) is left out; a draw call
 * records the renderable, the light indices bound to the shader's
 * `lights[0..numLights)` slots, and the two texture switches.
 *
 * Each light type has its own shader that takes at most MAX_NUM_* lights,
 * so lights are bound in batches: the light loop is outermost, then the
 * renderables, then the slots of the batch.
 */
module Batching {
  import opened Common
  import opened Scene

  /** The shader capacities injected as MAX_NUM_LIGHTS. */
  const MaxNumPointLight: nat := 4
  const MaxNumDirLight: nat := 1
  const MaxNumSpotLight: nat := 4

  /** One `mesh.draw`: lights[j] is the index of the light bound to slot j,
      so `numLights` is |lights|. */
  datatype DrawCall = DrawCall(renderable: nat, lights: seq<nat>, diffuseMapOn: bool, normalMapOn: bool)

  /** The lights start, start+1, ..., start+count-1. */
  function LightSlots(start: nat, count: nat): (s: seq<nat>)
    ensures |s| == count
    ensures forall j | 0 <= j < count :: s[j] == start + j
  {
    seq(count, j requires 0 <= j => start + j)
  }

  /** Number of iterations of `for (idx = 0; idx < n; idx += m)`. */
  function NumBatches(n: nat, m: nat): nat
    requires m > 0
    decreases n
  {
    if n == 0 then 0 else if n <= m then 1 else 1 + NumBatches(n - m, m)
  }

  /** Batch b exists exactly when its start b*m is below the light count. */
  lemma {:induction false} BatchExists(n: nat, m: nat, b: nat)
    requires m > 0
    ensures b < NumBatches(n, m) <==> b * m < n
    decreases n
  {
    if n > m && b > 0 {
      BatchExists(n - m, m, b - 1);
      assert (b - 1) * m == b * m - m;
    } else if n > m {
      assert NumBatches(n, m) >= 1;
    } else if b > 0 {
      assert b * m >= m;
    }
  }

  /** Integer division by m is the unique q with q*m <= x < q*m + m. */
  lemma FloorDiv(x: nat, m: nat, q: nat)
    requires m > 0 && q * m <= x < q * m + m
    ensures x / m == q && x % m == x - q * m
  {
    var q', r' := x / m, x % m;
    assert x == q' * m + r' && 0 <= r' < m;
    MulStrict(q', q, m);
    MulStrict(q, q', m);
  }

  /** Multiples of m are at least m apart. */
  lemma MulStrict(a: int, b: int, m: int)
    requires m > 0
    ensures a < b ==> a * m + m <= b * m
  {
    if a < b {
      var d := b - a;
      assert b * m == a * m + d * m;
      assert d * m == (d - 1) * m + m;
      assert 0 <= (d - 1) * m;
    }
  }

  /** There are ceil(n/m) batches, none when n = 0. */
  lemma NumBatchesIsCeiling(n: nat, m: nat)
    requires m > 0
    ensures NumBatches(n, m) == (n + m - 1) / m
  {
    var nb := NumBatches(n, m);
    BatchExists(n, m, nb);
    if nb > 0 {
      BatchExists(n, m, nb - 1);
      assert nb * m == (nb - 1) * m + m;
    }
    FloorDiv(n + m - 1, m, nb);
  }

  /** The lights bound in batch b: min(m, n - b*m) of them, from b*m on. */
  function BatchLights(n: nat, m: nat, b: nat): seq<nat>
    requires m > 0 && b * m <= n
  {
    LightSlots(b * m, Min(m, n - b * m))
  }

  /** Every batch binds between 1 and m lights. */
  lemma BatchSize(n: nat, m: nat, b: nat)
    requires m > 0 && b < NumBatches(n, m)
    ensures b * m < n
    ensures 1 <= |BatchLights(n, m, b)| <= m
  {
    BatchExists(n, m, b);
  }

  /** The last batch binds n mod m lights, or m when m divides n. */
  lemma LastBatchSize(n: nat, m: nat)
    requires m > 0 && n > 0
    ensures NumBatches(n, m) > 0
    ensures (NumBatches(n, m) - 1) * m < n
    ensures |BatchLights(n, m, NumBatches(n, m) - 1)| == if n % m == 0 then m else n % m
  {
    var nb := NumBatches(n, m);
    BatchExists(n, m, 0);
    BatchExists(n, m, nb - 1);
    BatchExists(n, m, nb);
    var b := nb - 1;
    assert nb * m == b * m + m;
    if n == b * m + m {
      FloorDiv(n, m, b + 1);
      assert (b + 1) * m == b * m + m;
    } else {
      FloorDiv(n, m, b);
    }
  }

  /** The quotient x div m is the q with q*m <= x < q*m + m. */
  lemma DivBounds(x: nat, m: nat)
    requires m > 0
    ensures (x / m) * m <= x < (x / m) * m + m
  {
    assert x == (x / m) * m + x % m;
  }

  /** The batch l div m of a light l < n is one the loop visits. */
  lemma LightBatchVisited(n: nat, m: nat, l: nat)
    requires m > 0 && l < n
    ensures l / m < NumBatches(n, m)
  {
    DivBounds(l, m);
    BatchExists(n, m, l / m);
  }

  /**
   * Every light index l < n is bound in exactly one batch, the one with
   * b == l / m, at slot l - b*m of that batch.
   */
  lemma EveryLightInOneBatch(n: nat, m: nat, l: nat, b: nat)
    requires m > 0 && l < n && b < NumBatches(n, m)
    ensures b * m <= n
    ensures l / m < NumBatches(n, m)
    ensures l in BatchLights(n, m, b) <==> b == l / m
    ensures b == l / m ==> l - b * m < |BatchLights(n, m, b)| && BatchLights(n, m, b)[l - b * m] == l
  {
    BatchExists(n, m, b);
    LightBatchVisited(n, m, l);
    var lights := BatchLights(n, m, b);
    if b * m <= l < b * m + m {
      FloorDiv(l, m, b);
      assert lights[l - b * m] == l;
    } else {
      DivBounds(l, m);
      assert l !in lights;
    }
  }

  /** The draw call for renderable r in the batch that binds `lights`. */
  function DrawWith(renderables: seq<Renderable>, cfg: RenderConfig, r: nat, lights: seq<nat>): DrawCall
    requires r < |renderables|
  {
    DrawCall(r, lights,
             renderables[r].hasDiffuseMap && cfg.useDiffuseMap,
             renderables[r].hasNormalMap && cfg.useNormalMap)
  }

  /** The innermost loop of a batch: slot j gets light idx + j, for j below
      m and below the lights left, so min(m, n - idx) slots are filled. */
  method BindSlots(n: nat, m: nat, idx: nat) returns (lights: seq<nat>)
    requires idx <= n
    ensures lights == LightSlots(idx, Min(m, n - idx))
  {
    lights := [];
    var j := 0;
    while j < m && idx + j < n
      invariant j <= m && idx + j <= n
      invariant lights == LightSlots(idx, j)
    {
      lights := lights + [idx + j];
      j := j + 1;
    }
  }

  /**
   * The point-light (or spot-light) section of `drawScene` for n lights and
   * a shader capacity of m: for idx = 0, m, 2m, ... below n, draw every
   * renderable once with lights idx .. idx+numLights-1 bound to slots
   * 0 .. numLights-1, where numLights = min(m, n - idx). Result b holds the
   * draws of batch b in renderable order.
   */
  method LightPasses(n: nat, m: nat, renderables: seq<Renderable>, cfg: RenderConfig)
    returns (batches: seq<seq<DrawCall>>)
    requires m > 0
    ensures |batches| == NumBatches(n, m)
    ensures forall b | 0 <= b < |batches| :: |batches[b]| == |renderables|
    ensures forall b | 0 <= b < |batches| :: b * m < n
    ensures forall b, r | 0 <= b < |batches| && 0 <= r < |batches[b]| ::
              b * m < n && batches[b][r] == DrawWith(renderables, cfg, r, BatchLights(n, m, b))
  {
    batches := [];
    var idx := 0;
    while idx < n
      invariant idx == |batches| * m
      invariant |batches| == 0 || (|batches| - 1) * m < n
      invariant forall b | 0 <= b < |batches| :: |batches[b]| == |renderables|
      invariant forall b | 0 <= b < |batches| :: b * m < n
      invariant forall b, r | 0 <= b < |batches| && 0 <= r < |batches[b]| ::
                  b * m < n && batches[b][r] == DrawWith(renderables, cfg, r, BatchLights(n, m, b))
    {
      var batch := [];
      var r := 0;
      while r < |renderables|
        invariant r <= |renderables|
        invariant |batch| == r
        invariant forall k | 0 <= k < r :: batch[k] == DrawWith(renderables, cfg, k, BatchLights(n, m, |batches|))
      {
        var lights := BindSlots(n, m, idx);
        batch := batch + [DrawWith(renderables, cfg, r, lights)];
        r := r + 1;
      }
      batches := batches + [batch];
      idx := idx + m;
    }
    BatchExists(n, m, |batches|);
    if |batches| > 0 {
      BatchExists(n, m, |batches| - 1);
    }
  }

  /**
   * The sunlight section of `drawScene`: when the switch is on, every
   * renderable is drawn once with the single directional light bound to
   * slot 0; when it is off, nothing is drawn.
   */
  method DirectionalPass(renderables: seq<Renderable>, cfg: RenderConfig) returns (draws: seq<DrawCall>)
    ensures |draws| == if cfg.sunlight then |renderables| else 0
    ensures forall r | 0 <= r < |draws| :: draws[r] == DrawWith(renderables, cfg, r, [0])
    ensures forall r | 0 <= r < |draws| :: |draws[r].lights| == MaxNumDirLight
  {
    draws := [];
    if cfg.sunlight {
      var r := 0;
      while r < |renderables|
        invariant r <= |renderables| && |draws| == r
        invariant forall k | 0 <= k < r :: draws[k] == DrawWith(renderables, cfg, k, [0])
      {
        draws := draws + [DrawWith(renderables, cfg, r, [0])];
        r := r + 1;
      }
    }
  }

  /** The draws of one frame, pass by pass. The depth pre-pass lists the
      renderables it draws with the geometry-only shader. */
  datatype Frame = Frame(
    depthPass: seq<nat>,
    pointPasses: seq<seq<DrawCall>>,
    spotPasses: seq<seq<DrawCall>>,
    directionalPass: seq<DrawCall>)

  /** Number of draw calls in a sequence of batches. */
  function CountDraws(batches: seq<seq<DrawCall>>): nat
  {
    if batches == [] then 0 else |batches[0]| + CountDraws(batches[1..])
  }

  lemma {:induction false} CountUniformBatches(batches: seq<seq<DrawCall>>, width: nat)
    requires forall b | 0 <= b < |batches| :: |batches[b]| == width
    ensures CountDraws(batches) == |batches| * width
  {
    if batches != [] {
      CountUniformBatches(batches[1..], width);
    }
  }

  /** Lit draws: all point and spot batches plus the directional pass. */
  function LitDraws(f: Frame): nat
  {
    CountDraws(f.pointPasses) + CountDraws(f.spotPasses) + |f.directionalPass|
  }

  /** The depth pre-pass: every renderable, in order, drawn once. */
  method DepthPrePass(renderables: seq<Renderable>) returns (depth: seq<nat>)
    ensures |depth| == |renderables|
    ensures forall k | 0 <= k < |depth| :: depth[k] == k
  {
    depth := [];
    var r := 0;
    while r < |renderables|
      invariant r <= |renderables| && |depth| == r
      invariant forall k | 0 <= k < r :: depth[k] == k
    {
      depth := depth + [r];
      r := r + 1;
    }
  }

  /**
   * `drawScene`: a depth pre-pass over every renderable, then the point-light
   * batches, the spot-light batches and the optional sunlight pass.
   */
  method DrawScene(renderables: seq<Renderable>, numPointLights: nat, numSpotLights: nat, cfg: RenderConfig)
    returns (f: Frame)
    ensures |f.depthPass| == |renderables|
    ensures forall k | 0 <= k < |f.depthPass| :: f.depthPass[k] == k
    ensures |f.pointPasses| == (numPointLights + MaxNumPointLight - 1) / MaxNumPointLight
    ensures |f.spotPasses| == (numSpotLights + MaxNumSpotLight - 1) / MaxNumSpotLight
    ensures forall b | 0 <= b < |f.pointPasses| ::
              |f.pointPasses[b]| == |renderables| && b * MaxNumPointLight < numPointLights
    ensures forall b, r | 0 <= b < |f.pointPasses| && 0 <= r < |f.pointPasses[b]| ::
              b * MaxNumPointLight < numPointLights
              && f.pointPasses[b][r] == DrawWith(renderables, cfg, r, BatchLights(numPointLights, MaxNumPointLight, b))
    ensures forall b, r | 0 <= b < |f.pointPasses| && 0 <= r < |f.pointPasses[b]| ::
              1 <= |f.pointPasses[b][r].lights| <= MaxNumPointLight
    ensures forall b | 0 <= b < |f.spotPasses| ::
              |f.spotPasses[b]| == |renderables| && b * MaxNumSpotLight < numSpotLights
    ensures forall b, r | 0 <= b < |f.spotPasses| && 0 <= r < |f.spotPasses[b]| ::
              b * MaxNumSpotLight < numSpotLights
              && f.spotPasses[b][r] == DrawWith(renderables, cfg, r, BatchLights(numSpotLights, MaxNumSpotLight, b))
    ensures forall b, r | 0 <= b < |f.spotPasses| && 0 <= r < |f.spotPasses[b]| ::
              1 <= |f.spotPasses[b][r].lights| <= MaxNumSpotLight
    ensures |f.directionalPass| == if cfg.sunlight then |renderables| else 0
    ensures forall r | 0 <= r < |f.directionalPass| :: f.directionalPass[r] == DrawWith(renderables, cfg, r, [0])
    ensures LitDraws(f) == |f.pointPasses| * |renderables| + |f.spotPasses| * |renderables| + |f.directionalPass|
  {
    var depth := DepthPrePass(renderables);
    var points := LightPasses(numPointLights, MaxNumPointLight, renderables, cfg);
    var spots := LightPasses(numSpotLights, MaxNumSpotLight, renderables, cfg);
    var sun := DirectionalPass(renderables, cfg);
    f := Frame(depth, points, spots, sun);
    NumBatchesIsCeiling(numPointLights, MaxNumPointLight);
    NumBatchesIsCeiling(numSpotLights, MaxNumSpotLight);
    BatchesBindOneToM(numPointLights, MaxNumPointLight, points, renderables, cfg);
    BatchesBindOneToM(numSpotLights, MaxNumSpotLight, spots, renderables, cfg);
    CountUniformBatches(points, |renderables|);
    CountUniformBatches(spots, |renderables|);
  }

  /** Every draw of a batch sequence built by `LightPasses` binds 1 to m lights. */
  lemma BatchesBindOneToM(n: nat, m: nat, batches: seq<seq<DrawCall>>, renderables: seq<Renderable>, cfg: RenderConfig)
    requires m > 0
    requires forall b | 0 <= b < |batches| :: |batches[b]| == |renderables|
    requires forall b | 0 <= b < |batches| :: b * m < n
    requires forall b, r | 0 <= b < |batches| && 0 <= r < |batches[b]| ::
               b * m < n && batches[b][r] == DrawWith(renderables, cfg, r, BatchLights(n, m, b))
    ensures forall b, r | 0 <= b < |batches| && 0 <= r < |batches[b]| ::
              1 <= |batches[b][r].lights| <= m
  {
  }

}
