/**
 * `Transform` and `Transform::getGlobalTransform`.
 *
 * Matrices are modelled symbolically: a matrix is a word over primitive
 * transforms, the product is concatenation and the identity is the empty
 * word. This is the free monoid, so every equation between products proved
 * here holds for 4x4 matrices under any interpretation of the primitives.
 *
 * Parent pointers become indices into an arena (a sequence of nodes).
 * Acyclicity is witnessed by a rank per node that strictly grows from a
 * parent to its child; a finite parent relation admits such a rank exactly
 * when it has no cycle.
 */
module Transform {
  import opened Common
  import opened Vec

  /** A primitive 4x4 transform; `Rotate` takes its angle in degrees. */
  datatype Prim = Translate(offset: Vec3) | Scaling(factors: Vec3) | Rotate(degrees: real, axis: Vec3)

  type Mat = seq<Prim>

  /** `glm::mat4(1.0f)`. */
  const Identity: Mat := []

  function Mul(a: Mat, b: Mat): Mat
  {
    a + b
  }

  /** A transform node: its local model matrix and its parent, `None` for a root. */
  datatype Node = Node(local: Mat, parent: Option<nat>)

  type Arena = seq<Node>

  /** Every parent index is in range and has a strictly smaller rank than its
      child, so following parents always ends at a root. */
  predicate Ranked(a: Arena, rank: seq<nat>)
  {
    && |rank| == |a|
    && forall i | 0 <= i < |a| ::
         a[i].parent.Some? ==> a[i].parent.value < |a| && rank[a[i].parent.value] < rank[i]
  }

  /**
   * The chain of node i: its root first, then each child down to i itself.
   */
  function Chain(a: Arena, rank: seq<nat>, i: nat): (c: seq<nat>)
    requires Ranked(a, rank) && i < |a|
    ensures 0 < |c| && c[|c| - 1] == i
    ensures forall k | 0 <= k < |c| :: c[k] < |a| && rank[c[k]] <= rank[i]
    ensures a[c[0]].parent.None?
    ensures forall k | 0 < k < |c| :: c[k] < |a| && a[c[k]].parent == Some(c[k - 1])
    ensures forall k | 0 <= k < |c| - 1 :: rank[c[k]] < rank[i]
    decreases rank[i]
  {
    match a[i].parent
    case None => [i]
    case Some(p) => Chain(a, rank, p) + [i]
  }

  /** The product of the local matrices of the nodes in c, in order. */
  function FoldLocals(a: Arena, c: seq<nat>): Mat
    requires forall k | 0 <= k < |c| :: c[k] < |a|
  {
    if c == [] then Identity else Mul(a[c[0]].local, FoldLocals(a, c[1..]))
  }

  lemma {:induction false} FoldLocalsAppend(a: Arena, c: seq<nat>, i: nat)
    requires forall k | 0 <= k < |c| :: c[k] < |a|
    requires i < |a|
    ensures FoldLocals(a, c + [i]) == Mul(FoldLocals(a, c), a[i].local)
  {
    if c != [] {
      assert (c + [i])[1..] == c[1..] + [i];
      FoldLocalsAppend(a, c[1..], i);
    }
  }

  /**
   * The world matrix of node i: its parent's world matrix times its local
   * matrix, or its local matrix when it is a root.
   */
  function Global(a: Arena, rank: seq<nat>, i: nat): (m: Mat)
    requires Ranked(a, rank) && i < |a|
    ensures a[i].parent.None? ==> m == a[i].local
    decreases rank[i]
  {
    match a[i].parent
    case None => a[i].local
    case Some(p) => Mul(Global(a, rank, p), a[i].local)
  }

  /** The world matrix is the product of the local matrices along the chain,
      root first: root.local * ... * parent.local * local. */
  lemma {:induction false} GlobalIsChainProduct(a: Arena, rank: seq<nat>, i: nat)
    requires Ranked(a, rank) && i < |a|
    ensures Global(a, rank, i) == FoldLocals(a, Chain(a, rank, i))
    decreases rank[i]
  {
    match a[i].parent
    case None =>
    case Some(p) =>
      GlobalIsChainProduct(a, rank, p);
      FoldLocalsAppend(a, Chain(a, rank, p), i);
  }

  /**
   * `getGlobalTransform` as the source writes it: start from the local
   * matrix and walk up the parents, left-multiplying each one's local matrix.
   * The arena is a value, so the walk reads the nodes and changes none.
   */
  method GetGlobalTransform(a: Arena, rank: seq<nat>, i: nat) returns (m: Mat)
    requires Ranked(a, rank) && i < |a|
    ensures m == Global(a, rank, i)
    ensures a[i].parent.None? ==> m == a[i].local
  {
    m := a[i].local;
    var iter: Option<nat> := a[i].parent;
    while iter.Some?
      invariant iter.Some? ==> iter.value < |a| && Mul(Global(a, rank, iter.value), m) == Global(a, rank, i)
      invariant iter.None? ==> m == Global(a, rank, i)
      decreases if iter.Some? then rank[iter.value] + 1 else 0
    {
      m := Mul(a[iter.value].local, m);
      iter := a[iter.value].parent;
    }
  }

  /** The arena with node k's local matrix replaced by m; parents are untouched. */
  function SetLocal(a: Arena, k: nat, m: Mat): (a': Arena)
    requires k < |a|
    ensures |a'| == |a| && a'[k].local == m
    ensures forall j | 0 <= j < |a| :: a'[j].parent == a[j].parent
    ensures forall j | 0 <= j < |a| && j != k :: a'[j] == a[j]
  {
    a[k := a[k].(local := m)]
  }

  /**
   * Changing node k's local matrix changes the world matrix of node j
   * exactly when k is on j's chain (j itself or one of its ancestors) and the
   * new matrix differs from the old one. The "unchanged" direction holds for
   * matrices under any interpretation; the "changed" direction is a fact
   * about words, since distinct words may denote the same numeric matrix.
   */
  lemma {:induction false} SetLocalEffect(a: Arena, rank: seq<nat>, k: nat, m: Mat, j: nat)
    requires Ranked(a, rank) && k < |a| && j < |a|
    ensures Ranked(SetLocal(a, k, m), rank)
    ensures Global(SetLocal(a, k, m), rank, j) == Global(a, rank, j)
        <==> k !in Chain(a, rank, j) || m == a[k].local
    decreases rank[j]
  {
    var a' := SetLocal(a, k, m);
    assert Ranked(a', rank);
    match a[j].parent
    case None =>
      assert Chain(a, rank, j) == [j];
    case Some(p) =>
      SetLocalEffect(a, rank, k, m, p);
      var g, g' := Global(a, rank, p), Global(a', rank, p);
      assert Chain(a, rank, j) == Chain(a, rank, p) + [j];
      if j == k {
        assert k !in Chain(a, rank, p);
        if m != a[k].local {
          assert Global(a', rank, j) == g + m;
          assert Global(a, rank, j) == g + a[k].local;
          assert |m| != |a[k].local| || (g + m)[|g|..] != (g + a[k].local)[|g|..];
        }
      } else {
        var l := a[j].local;
        assert Global(a', rank, j) == g' + l && Global(a, rank, j) == g + l;
        if g' != g {
          assert |g'| != |g| || (g' + l)[..|g|] != (g + l)[..|g|];
        }
      }
  }

  /** Changing a node's local matrix never changes the world matrix of any of
      its ancestors. */
  lemma AncestorsUnaffected(a: Arena, rank: seq<nat>, k: nat, m: Mat, j: nat)
    requires Ranked(a, rank) && k < |a|
    requires j in Chain(a, rank, k) && j != k
    ensures Ranked(SetLocal(a, k, m), rank)
    ensures Global(SetLocal(a, k, m), rank, j) == Global(a, rank, j)
  {
    SetLocalEffect(a, rank, k, m, j);
    var c := Chain(a, rank, k);
    assert j < |a| && rank[j] < rank[k];
    assert k !in Chain(a, rank, j);
  }
}
