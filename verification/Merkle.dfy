/**
 * The volatility surface as signed: a sorted-pair Merkle tree over the leaves of a grid, its proofs, and what an
 * accepted proof says about the grid (sdk/src/surface.ts). Hashes are numbers, as the source compares them; the hash
 * function itself is a parameter.
 */
module Merkle {
  import opened Basics

  type Hash = int

  datatype LeafData = LeafData(productId: nat, surfaceSeq: nat, tenor: nat, node: nat, w: int)

  datatype Hasher = Hasher(two: (Hash, Hash) -> Hash, leaf: LeafData -> Hash)

  /** The two hashes in sorted order, hashed together. */
  function HashPair(k: Hasher, a: Hash, b: Hash): Hash {
    if a < b then k.two(a, b) else k.two(b, a)
  }

  lemma {:induction false} HashPairCommutes(k: Hasher, a: Hash, b: Hash)
    ensures HashPair(k, a, b) == HashPair(k, b, a)
  {
  }

  // ---------------------------------------------------------------------------------------------------------
  // The tree
  // ---------------------------------------------------------------------------------------------------------

  /** Node x of the layer above: two children hashed, or an odd last one carried up. */
  function Parent(k: Hasher, layer: seq<Hash>, x: nat): Hash
    requires 2 * x < |layer|
  {
    if 2 * x + 1 < |layer| then HashPair(k, layer[2 * x], layer[2 * x + 1]) else layer[2 * x]
  }

  ghost predicate IsAbove(k: Hasher, layer: seq<Hash>, next: seq<Hash>) {
    && |next| == (|layer| + 1) / 2
    && forall x :: 0 <= x < |next| ==> next[x] == Parent(k, layer, x)
  }

  ghost predicate Continues(k: Hasher, layers: seq<seq<Hash>>, l: int)
    requires 0 <= l < |layers| - 1
  {
    1 < |layers[l]| && IsAbove(k, layers[l], layers[l + 1])
  }

  /** Every layer is above the one before it, and only the last has fewer than two nodes. */
  ghost predicate Layered(k: Hasher, layers: seq<seq<Hash>>) {
    && layers != [] && layers[0] != []
    && forall l {:trigger Continues(k, layers, l)} :: 0 <= l < |layers| - 1 ==> Continues(k, layers, l)
  }

  ghost predicate IsTree(k: Hasher, layers: seq<seq<Hash>>) {
    Layered(k, layers) && |layers[|layers| - 1]| == 1
  }

  function RootOf(layers: seq<seq<Hash>>): Hash
    requires layers != [] && layers[|layers| - 1] != []
  {
    layers[|layers| - 1][0]
  }

  /** `index ^ 1`. */
  function Sibling(index: nat): nat {
    if index % 2 == 0 then index + 1 else index - 1
  }

  /** Siblings from layer `l` up to the root; a carried node has none. */
  function ProofOf(layers: seq<seq<Hash>>, l: nat, index: nat): seq<Hash>
    decreases |layers| - l
  {
    if |layers| <= l + 1 then []
    else
      var sibling := Sibling(index);
      (if sibling < |layers[l]| then [layers[l][sibling]] else []) + ProofOf(layers, l + 1, index / 2)
  }

  /** `proof.reduce((h, p) => hashPair(h, p), leaf)`. */
  function Fold(k: Hasher, proof: seq<Hash>, h: Hash): Hash {
    if proof == [] then h else Fold(k, proof[1..], HashPair(k, h, proof[0]))
  }

  predicate Verify(k: Hasher, proof: seq<Hash>, root: Hash, leaf: Hash) {
    Fold(k, proof, leaf) == root
  }

  /** One step up: a node and its sibling make their parent, and a node without one is carried. */
  lemma {:induction false} StepUp(k: Hasher, layer: seq<Hash>, next: seq<Hash>, index: nat)
    requires IsAbove(k, layer, next) && index < |layer|
    ensures index / 2 < |next|
    ensures next[index / 2] ==
      if Sibling(index) < |layer| then HashPair(k, layer[index], layer[Sibling(index)]) else layer[index]
  {
    var x := index / 2;
    assert index == 2 * x || index == 2 * x + 1;
    assert next[x] == Parent(k, layer, x);
    if index == 2 * x + 1 {
      HashPairCommutes(k, layer[2 * x], layer[2 * x + 1]);
    }
  }

  /** Completeness: the proof of any node, carried ones included, leads to the root. */
  lemma {:induction false} ProofVerifies(k: Hasher, layers: seq<seq<Hash>>, l: nat, index: nat)
    requires IsTree(k, layers) && l < |layers| && index < |layers[l]|
    ensures Verify(k, ProofOf(layers, l, index), RootOf(layers), layers[l][index])
    decreases |layers| - l
  {
    hide HashPair, Sibling, IsAbove;
    if l + 1 < |layers| {
      var layer, sibling, rest := layers[l], Sibling(index), ProofOf(layers, l + 1, index / 2);
      assert Continues(k, layers, l);
      StepUp(k, layer, layers[l + 1], index);
      ProofVerifies(k, layers, l + 1, index / 2);
      if sibling < |layer| {
        assert ProofOf(layers, l, index) == [layer[sibling]] + rest;
        assert ([layer[sibling]] + rest)[1..] == rest;
      } else {
        assert ProofOf(layers, l, index) == rest;
      }
    }
  }

  /** Equal pair hashes come from the same two hashes. */
  ghost predicate PairsDistinct(k: Hasher) {
    forall a, b, x, y {:trigger HashPair(k, a, b), HashPair(k, x, y)} ::
      HashPair(k, a, b) == HashPair(k, x, y) ==> (a == x && b == y) || (a == y && b == x)
  }

  /** A leaf's hash is not a pair's, and no other leaf's. */
  ghost predicate LeavesDistinct(k: Hasher) {
    && (forall d, a, b {:trigger k.leaf(d), HashPair(k, a, b)} :: k.leaf(d) != HashPair(k, a, b))
    && forall d, e {:trigger k.leaf(d), k.leaf(e)} :: k.leaf(d) == k.leaf(e) ==> d == e
  }

  /** A hash function without collisions, whose values for leaves and for pairs differ, is all that this asks for. */
  lemma {:induction false} NoCollisions(k: Hasher)
    requires forall a, b, x, y {:trigger k.two(a, b), k.two(x, y)} :: k.two(a, b) == k.two(x, y) ==> a == x && b == y
    requires forall d, a, b {:trigger k.leaf(d), k.two(a, b)} :: k.leaf(d) != k.two(a, b)
    requires forall d, e {:trigger k.leaf(d), k.leaf(e)} :: k.leaf(d) == k.leaf(e) ==> d == e
    ensures PairsDistinct(k) && LeavesDistinct(k)
  {
  }

  /** The tree of three leaves: the first two are a pair, the third is carried up. */
  lemma {:induction false} ThreeLeaves(k: Hasher, layers: seq<seq<Hash>>, a: Hash, b: Hash, c: Hash)
    requires IsTree(k, layers) && layers[0] == [a, b, c] && a < b && k.two(a, b) < c
    ensures RootOf(layers) == k.two(k.two(a, b), c)
  {
    assert Continues(k, layers, 0);
    assert |layers[1]| == 2 && layers[1][0] == Parent(k, layers[0], 0) && layers[1][1] == Parent(k, layers[0], 1);
    assert Continues(k, layers, 1);
    assert |layers[2]| == 1 && layers[2][0] == Parent(k, layers[1], 0);
    if 3 < |layers| {
      OnlyTheLastIsSingle(k, layers, 2);
    }
  }

  lemma {:induction false} OnlyTheLastIsSingle(k: Hasher, layers: seq<seq<Hash>>, l: nat)
    requires Layered(k, layers) && l < |layers| - 1
    ensures 1 < |layers[l]|
  {
    assert Continues(k, layers, l);
  }

  lemma {:induction false} FoldLast(k: Hasher, proof: seq<Hash>, h: Hash)
    requires proof != []
    ensures Fold(k, proof, h) == HashPair(k, Fold(k, proof[..|proof| - 1], h), proof[|proof| - 1])
  {
    if 1 < |proof| {
      FoldLast(k, proof[1..], HashPair(k, h, proof[0]));
      assert proof[1..][..|proof| - 2] == proof[..|proof| - 1][1..];
    }
  }

  ghost predicate AllLeaves(k: Hasher, hashes: seq<Hash>) {
    forall i :: 0 <= i < |hashes| ==> exists d :: hashes[i] == k.leaf(d)
  }

  /** Soundness: a leaf whose proof leads to a node of the tree is one of the leaves below that node. */
  lemma {:induction false} AcceptedIsALeaf(k: Hasher, layers: seq<seq<Hash>>, l: nat, x: nat, proof: seq<Hash>,
      d: LeafData)
    requires Layered(k, layers) && AllLeaves(k, layers[0]) && PairsDistinct(k) && LeavesDistinct(k)
    requires l < |layers| && x < |layers[l]| && Fold(k, proof, k.leaf(d)) == layers[l][x]
    ensures k.leaf(d) in layers[0]
    decreases l
  {
    var n := |proof|;
    if n != 0 {
      FoldLast(k, proof, k.leaf(d));
    }
    if l == 0 {
      assert exists e :: layers[0][x] == k.leaf(e);
    } else {
      var below := layers[l - 1];
      assert Continues(k, layers, l - 1);
      assert layers[l][x] == Parent(k, below, x);
      if |below| <= 2 * x + 1 {
        AcceptedIsALeaf(k, layers, l - 1, 2 * x, proof, d);
      } else if n != 0 {
        var h := Fold(k, proof[..n - 1], k.leaf(d));
        assert HashPair(k, h, proof[n - 1]) == HashPair(k, below[2 * x], below[2 * x + 1]);
        AcceptedIsALeaf(k, layers, l - 1, if h == below[2 * x] then 2 * x else 2 * x + 1, proof[..n - 1], d);
      }
    }
  }

  lemma {:induction false} LayerAdded(k: Hasher, layers: seq<seq<Hash>>, next: seq<Hash>)
    requires Layered(k, layers) && 1 < |layers[|layers| - 1]| && IsAbove(k, layers[|layers| - 1], next)
    ensures Layered(k, layers + [next])
  {
    var layers' := layers + [next];
    forall l | 0 <= l < |layers'| - 1 ensures Continues(k, layers', l) {
      assert l < |layers| - 1 ==> Continues(k, layers, l);
    }
  }

  class MerkleTree {
    const k: Hasher
    var layers: seq<seq<Hash>>

    ghost predicate Valid()
      reads this
    {
      IsTree(k, layers)
    }

    /** Adjacent pairs are hashed layer by layer until one node is left. */
    constructor (k: Hasher, leaves: seq<Hash>)
      requires leaves != []
      ensures Valid() && this.k == k && layers[0] == leaves
    {
      this.k := k;
      layers := [leaves];
      new;
      while 1 < |layers[|layers| - 1]|
        invariant Layered(k, layers) && layers[0] == leaves
        invariant layers[|layers| - 1] != []
        decreases |layers[|layers| - 1]|
      {
        var prev := layers[|layers| - 1];
        var next: seq<Hash> := [];
        var i := 0;
        while i < |prev|
          invariant i <= |prev| + 1 && i == 2 * |next|
          invariant forall x :: 0 <= x < |next| ==> next[x] == Parent(k, prev, x)
        {
          next := next + [if i + 1 < |prev| then HashPair(k, prev[i], prev[i + 1]) else prev[i]];
          i := i + 2;
        }
        ghost var were := layers;
        layers := layers + [next];
        LayerAdded(k, were, next);
      }
    }

    /** A tree needs at least one leaf. */
    static method Make(k: Hasher, leaves: seq<Hash>) returns (tree: Option<MerkleTree>)
      ensures tree.Some? <==> leaves != []
      ensures tree.Some? ==>
        fresh(tree.value) && tree.value.Valid() && tree.value.k == k && tree.value.layers[0] == leaves
    {
      if leaves == [] {
        return None;
      }
      var t := new MerkleTree(k, leaves);
      tree := Some(t);
    }

    method Root() returns (root: Hash)
      requires Valid()
      ensures root == RootOf(layers)
    {
      root := layers[|layers| - 1][0];
    }

    /** The siblings on the way up; it verifies against the root. */
    method Proof(index: nat) returns (out: seq<Hash>)
      requires Valid()
      ensures out == ProofOf(layers, 0, index)
      ensures index < |layers[0]| ==> Verify(k, out, RootOf(layers), layers[0][index])
    {
      out := [];
      var at := index;
      for l := 0 to |layers| - 1
        invariant out + ProofOf(layers, l, at) == ProofOf(layers, 0, index)
      {
        var layer := layers[l];
        var sibling := Sibling(at);
        ghost var was := out;
        if sibling < |layer| {
          out := out + [layer[sibling]];
        }
        assert out + ProofOf(layers, l + 1, at / 2) == was + ProofOf(layers, l, at);
        at := at / 2;
      }
      if index < |layers[0]| {
        ProofVerifies(k, layers, 0, index);
      }
    }
  }

  // ---------------------------------------------------------------------------------------------------------
  // The grid
  // ---------------------------------------------------------------------------------------------------------

  type Grid = seq<seq<int>>

  predicate Inside(w: Grid, t: int, j: int) {
    0 <= t < |w| && 0 <= j < |w[t]|
  }

  predicate Rectangular(w: Grid) {
    forall t :: 0 <= t < |w| ==> |w[t]| == |w[0]|
  }

  function RowLeaves(k: Hasher, productId: nat, surfaceSeq: nat, t: nat, row: seq<int>): (r: seq<Hash>)
    ensures |r| == |row|
  {
    seq(|row|, j requires 0 <= j < |row| => k.leaf(LeafData(productId, surfaceSeq, t, j, row[j])))
  }

  /** The leaves of the first `n` rows, row after row. */
  function Leaves(k: Hasher, productId: nat, surfaceSeq: nat, w: Grid, n: nat): seq<Hash>
    requires n <= |w|
  {
    if n == 0 then []
    else Leaves(k, productId, surfaceSeq, w, n - 1) + RowLeaves(k, productId, surfaceSeq, n - 1, w[n - 1])
  }

  lemma {:induction false} NodeIndex(t: nat, j: nat, rows: nat, columns: nat)
    requires t < rows && j < columns
    ensures t * columns + j < rows * columns
  {
    MulAtMost(t + 1, rows, columns);
    assert (t + 1) * columns == t * columns + columns;
  }

  /** In a rectangular grid the leaf of (t, j) is number t * columns + j. */
  lemma {:induction false} LeafOfNode(k: Hasher, productId: nat, surfaceSeq: nat, w: Grid, n: nat, t: nat, j: nat)
    requires Rectangular(w) && n <= |w| && t < n && j < |w[0]|
    ensures |Leaves(k, productId, surfaceSeq, w, n)| == n * |w[0]|
    ensures t * |w[0]| + j < n * |w[0]|
    ensures Leaves(k, productId, surfaceSeq, w, n)[t * |w[0]| + j]
      == k.leaf(LeafData(productId, surfaceSeq, t, j, w[t][j]))
  {
    NodeIndex(t, j, n, |w[0]|);
    var before := Leaves(k, productId, surfaceSeq, w, n - 1);
    if 1 < n {
      LeafOfNode(k, productId, surfaceSeq, w, n - 1, if t < n - 1 then t else 0, j);
    }
    assert |before| == (n - 1) * |w[0]|;
    if t == n - 1 {
      assert (before + RowLeaves(k, productId, surfaceSeq, t, w[t]))[|before| + j]
        == RowLeaves(k, productId, surfaceSeq, t, w[t])[j];
    }
  }

  /** Every leaf of the grid belongs to one of its nodes. */
  lemma {:induction false} LeafHasNode(k: Hasher, productId: nat, surfaceSeq: nat, w: Grid, n: nat, i: nat)
    returns (t: nat, j: nat)
    requires n <= |w| && i < |Leaves(k, productId, surfaceSeq, w, n)|
    ensures t < n && j < |w[t]|
    ensures Leaves(k, productId, surfaceSeq, w, n)[i] == k.leaf(LeafData(productId, surfaceSeq, t, j, w[t][j]))
  {
    var before := Leaves(k, productId, surfaceSeq, w, n - 1);
    if i < |before| {
      t, j := LeafHasNode(k, productId, surfaceSeq, w, n - 1, i);
    } else {
      t, j := n - 1, i - |before|;
    }
  }

  ghost predicate TreeOf(k: Hasher, productId: nat, surfaceSeq: nat, w: Grid, layers: seq<seq<Hash>>) {
    IsTree(k, layers) && layers[0] == Leaves(k, productId, surfaceSeq, w, |w|)
  }

  /** Every node of a rectangular grid has a proof that verifies. */
  lemma {:induction false} NodeProofVerifies(k: Hasher, productId: nat, surfaceSeq: nat, w: Grid,
      layers: seq<seq<Hash>>, t: nat, j: nat)
    requires TreeOf(k, productId, surfaceSeq, w, layers) && Rectangular(w) && Inside(w, t, j)
    ensures Verify(k, ProofOf(layers, 0, t * |w[0]| + j), RootOf(layers),
                   k.leaf(LeafData(productId, surfaceSeq, t, j, w[t][j])))
  {
    LeafOfNode(k, productId, surfaceSeq, w, |w|, t, j);
    ProofVerifies(k, layers, 0, t * |w[0]| + j);
  }

  /** Whatever proof is offered, an accepted leaf says what the grid says: same product, same sequence, same value. */
  lemma {:induction false} AcceptedLeafIsTheGrids(k: Hasher, productId: nat, surfaceSeq: nat, w: Grid,
      layers: seq<seq<Hash>>, proof: seq<Hash>, d: LeafData)
    requires TreeOf(k, productId, surfaceSeq, w, layers) && PairsDistinct(k) && LeavesDistinct(k)
    requires Verify(k, proof, RootOf(layers), k.leaf(d))
    ensures d.productId == productId && d.surfaceSeq == surfaceSeq
    ensures Inside(w, d.tenor, d.node) && d.w == w[d.tenor][d.node]
  {
    forall i | 0 <= i < |layers[0]| ensures exists e :: layers[0][i] == k.leaf(e) {
      var t, j := LeafHasNode(k, productId, surfaceSeq, w, |w|, i);
    }
    AcceptedIsALeaf(k, layers, |layers| - 1, 0, proof, d);
    var i :| 0 <= i < |layers[0]| && layers[0][i] == k.leaf(d);
    var t, j := LeafHasNode(k, productId, surfaceSeq, w, |w|, i);
    assert d == LeafData(productId, surfaceSeq, t, j, w[t][j]);
  }

  datatype NodeProof = NodeProof(leaf: LeafData, proof: seq<Hash>)

  class SurfaceGrid {
    const k: Hasher
    const productId: nat
    const surfaceSeq: nat
    const w: Grid
    var leaves: seq<Hash>
    const tree: MerkleTree

    ghost predicate Valid()
      reads this, tree
    {
      && tree.k == k && TreeOf(k, productId, surfaceSeq, w, tree.layers)
      && leaves == Leaves(k, productId, surfaceSeq, w, |w|)
    }

    constructor (k: Hasher, productId: nat, surfaceSeq: nat, w: Grid, leaves: seq<Hash>, tree: MerkleTree)
      requires leaves == Leaves(k, productId, surfaceSeq, w, |w|)
      requires tree.Valid() && tree.k == k && tree.layers[0] == leaves
      ensures Valid() && this.w == w && this.k == k && this.productId == productId && this.surfaceSeq == surfaceSeq
      ensures this.tree == tree
    {
      this.k, this.productId, this.surfaceSeq, this.w, this.leaves, this.tree := k, productId, surfaceSeq, w, leaves,
        tree;
    }

    /** Row-major leaves, and the tree over them; a grid without nodes has no tree. */
    static method Make(k: Hasher, productId: nat, surfaceSeq: nat, w: Grid) returns (grid: Option<SurfaceGrid>)
      ensures grid.Some? <==> exists t :: 0 <= t < |w| && w[t] != []
      ensures grid.Some? ==> grid.value.Valid() && fresh(grid.value) && grid.value.k == k && grid.value.w == w
      ensures grid.Some? ==> grid.value.productId == productId && grid.value.surfaceSeq == surfaceSeq
    {
      var leaves: seq<Hash> := [];
      for t := 0 to |w|
        invariant leaves == Leaves(k, productId, surfaceSeq, w, t)
        invariant leaves == [] <==> forall s :: 0 <= s < t ==> w[s] == []
      {
        ghost var before := leaves;
        for j := 0 to |w[t]|
          invariant leaves == before + RowLeaves(k, productId, surfaceSeq, t, w[t])[..j]
        {
          leaves := leaves + [k.leaf(LeafData(productId, surfaceSeq, t, j, w[t][j]))];
        }
        assert RowLeaves(k, productId, surfaceSeq, t, w[t])[..|w[t]|] == RowLeaves(k, productId, surfaceSeq, t, w[t]);
      }
      var tree := MerkleTree.Make(k, leaves);
      if tree.None? {
        return None;
      }
      var g := new SurfaceGrid(k, productId, surfaceSeq, w, leaves, tree.value);
      grid := Some(g);
    }

    function NodesPerTenor(): nat {
      if w == [] then 0 else |w[0]|
    }

    /** The leaf of a node with its proof; no such node is an error. On a rectangular grid the proof verifies. */
    method ProveNode(t: nat, j: nat) returns (r: Option<NodeProof>)
      requires Valid()
      ensures r.Some? <==> Inside(w, t, j)
      ensures r.Some? ==> r.value.leaf == LeafData(productId, surfaceSeq, t, j, w[t][j])
      ensures r.Some? && Rectangular(w) ==>
        Verify(k, r.value.proof, RootOf(tree.layers), k.leaf(r.value.leaf))
    {
      if |w| <= t || |w[t]| <= j {
        return None;
      }
      var proof := tree.Proof(t * NodesPerTenor() + j);
      r := Some(NodeProof(LeafData(productId, surfaceSeq, t, j, w[t][j]), proof));
      if Rectangular(w) {
        NodeProofVerifies(k, productId, surfaceSeq, w, tree.layers, t, j);
      }
    }
  }

  /** The shape checks of `assembleReport`: 1-4 tenors, a row and an at-the-money value each, a leaf per node. */
  method AssembleGrid(k: Hasher, productId: nat, surfaceSeq: nat, tenors: seq<int>, kNodes: seq<int>, w: Grid,
      atm: seq<int>)
    returns (grid: Option<SurfaceGrid>)
    ensures grid.Some? <==>
      1 <= |tenors| <= 4 && |w| == |tenors| == |atm| && kNodes != [] && forall t :: 0 <= t < |w| ==> |w[t]| == |kNodes|
    ensures grid.Some? ==> grid.value.Valid() && Rectangular(grid.value.w) && grid.value.w == w
  {
    if |tenors| < 1 || 4 < |tenors| || |w| != |tenors| || |atm| != |tenors| {
      return None;
    }
    for t := 0 to |w|
      invariant forall s :: 0 <= s < t ==> |w[s]| == |kNodes|
    {
      if |w[t]| != |kNodes| {
        return None;
      }
    }
    grid := SurfaceGrid.Make(k, productId, surfaceSeq, w);
    assert kNodes != [] ==> w[0] != [];
  }
}
