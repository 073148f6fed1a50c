/** Dealer key generation and single-point evaluation of mpc/dpf.hpp. */
module PointDpfKeys {
  import opened Blocks
  import opened Words
  import opened PointDpf

  /** `dpf_key`; the PRG key is part of the function `prg` that every operation is given. */
  datatype Key = Key(nitems: nat, root: Block, cw: seq<Block>, finalizer: seq<Block>)

  /** A leaf of several nodes, or the bits of one lane of a node. */
  datatype Leaf = Whole(nodes: seq<Block>) | Word(bits: seq<bool>)

  /** Keys whose vectors have the lengths the code indexes. */
  predicate Fits(y: Layout, key: Key) {
    Sensible(y) && key.nitems > 0 && |key.cw| == DepthOf(y, key.nitems) && |key.finalizer| == NodesPerLeaf(y)
  }

  function Div(x: nat, p: nat): nat
    requires p > 0
  {
    x / p
  }

  /** The node on layer `d` above input `x`. */
  function Ancestor(x: nat, nbits: nat, d: nat): nat
    requires d <= nbits
  {
    Div(x, Pow2(nbits - d))
  }

  /** The bit of `x` that layer `d` branches on. */
  predicate Direction(x: nat, nbits: nat, d: nat)
    requires d < nbits
  {
    x / Pow2(nbits - d - 1) % 2 == 1
  }

  lemma DivDiv(x: nat, p: nat)
    requires p > 0
    ensures x / p / 2 == x / (2 * p)
  {
    var q := x / p;
    HalfQuotient(x, p, q, x % p, q / 2, q % 2);
  }

  lemma HalfQuotient(x: nat, p: nat, q: nat, r: nat, h: nat, b: nat)
    requires x == p * q + r && r < p && q == 2 * h + b && b < 2
    ensures x / (2 * p) == h
  {
    assert p * q == (2 * p) * h + p * b;
    DivUnique(2 * p, x, h, p * b + r);
  }

  lemma AncestorStep(x: nat, nbits: nat, d: nat)
    requires d < nbits
    ensures Ancestor(x, nbits, d + 1) / 2 == Ancestor(x, nbits, d)
    ensures Ancestor(x, nbits, d + 1) % 2 == 1 <==> Direction(x, nbits, d)
  {
    DivDiv(x, Pow2(nbits - d - 1));
    assert Pow2(nbits - d) == 2 * Pow2(nbits - d - 1);
  }

  lemma SmallDiv(x: nat, p: nat)
    requires x < p
    ensures x / p == 0
  {
  }

  lemma DepthBelowBits(y: Layout, nitems: nat)
    requires nitems > 0
    ensures DepthOf(y, nitems) <= InputBits(nitems)
    ensures nitems <= LeavesPerNode(y) ==> DepthOf(y, nitems) == 0
  {
    if nitems > LeavesPerNode(y) {
      DepthPlusLanes(y, nitems);
    } else {
      var p := LeavesPerNode(y);
      CeilDivBounds(nitems, p);
      if CeilDiv(nitems, p) >= 2 {
        MulMonotone(p, 2, CeilDiv(nitems, p));
        assert false;
      }
    }
  }

  /** The leaf layer puts input `x` under node `x / leaves_per_node`. */
  lemma LeafAncestor(y: Layout, nitems: nat, x: nat)
    requires x < nitems
    ensures DepthOf(y, nitems) <= InputBits(nitems)
    ensures Ancestor(x, InputBits(nitems), DepthOf(y, nitems)) == x / LeavesPerNode(y)
  {
    DepthBelowBits(y, nitems);
    if nitems > LeavesPerNode(y) {
      DepthPlusLanes(y, nitems);
    } else {
      SmallDiv(x, Pow2(InputBits(nitems)));
      SmallDiv(x, LeavesPerNode(y));
    }
  }

  /** `finalize` for one node: the stretched seed, corrected under the flag. */
  function FinalNodes(prg: Prg, v: Node, finalizer: seq<Block>): (r: seq<Block>)
    ensures |r| == |finalizer|
  {
    seq(|finalizer|, j requires 0 <= j < |finalizer| => Xor(prg(Clear1(v.s), j), Mask(v.t, finalizer[j])))
  }

  function LaneBits(k: nat): nat {
    if k == 1 then 64 else if k == 2 then 32 else 8
  }

  /** `getword`: lane `i` of a node. */
  function Lane(b: Block, k: nat, i: nat): (r: seq<bool>)
    requires (k == 1 || k == 2 || k == 4) && i < Pow2(k)
    ensures |r| == LaneBits(k)
  {
    LaneFits(k, i);
    b.bits[i * LaneBits(k)..i * LaneBits(k) + LaneBits(k)]
  }

  lemma LaneFits(k: nat, i: nat)
    requires (k == 1 || k == 2 || k == 4) && i < Pow2(k)
    ensures i * LaneBits(k) + LaneBits(k) <= 128
  {
    assert Pow2(1) == 2 && Pow2(2) == 4 && Pow2(4) == 16;
  }

  /** The leaf of input `x` in the nodes of its leaf group. */
  function LeafOf(y: Layout, nodes: seq<Block>, x: nat): Leaf
    requires Sensible(y) && |nodes| == NodesPerLeaf(y)
  {
    match y
    case Nodes(_) => Whole(nodes)
    case Lanes(k) => Word(Lane(nodes[0], k, x % Pow2(k)))
  }

  /** The leaf is lane `i` of the node: 64, 32 or 8 bits, lanes in order from the first bit on. */
  predicate LaneIs(leaf: Leaf, node: Block, k: nat, i: nat) {
    && leaf.Word? && |leaf.bits| == (if k == 1 then 64 else if k == 2 then 32 else 8) && i * |leaf.bits| + |leaf.bits| <= 128
    && forall j :: 0 <= j < |leaf.bits| ==> leaf.bits[j] == node.bits[i * |leaf.bits| + j]
  }

  lemma LaneOfNode(node: Block, k: nat, i: nat)
    requires (k == 1 || k == 2 || k == 4) && i < Pow2(k)
    ensures LaneIs(Word(Lane(node, k, i)), node, k, i)
  {
    LaneFits(k, i);
  }

  /** The finished nodes above input `x`. */
  function EvalNodes(prg: Prg, y: Layout, key: Key, x: nat): (r: seq<Block>)
    requires Fits(y, key)
    ensures |r| == NodesPerLeaf(y)
  {
    FinalNodes(prg, NodeAt(prg, key.cw, key.root, |key.cw|, x / LeavesPerNode(y)), key.finalizer)
  }

  /** What `eval` returns. */
  function EvalLeaf(prg: Prg, y: Layout, key: Key, x: nat): Leaf
    requires Fits(y, key)
  {
    LeafOf(y, EvalNodes(prg, y, key, x), x)
  }

  /** The loop of `eval`: down the input's path. */
  method Walk(prg: Prg, key: Key, nbits: nat, x: nat) returns (v: Node)
    requires |key.cw| <= nbits && x < Pow2(nbits)
    ensures v == NodeAt(prg, key.cw, key.root, |key.cw|, Ancestor(x, nbits, |key.cw|))
  {
    var s, t := key.root, Lsb(key.root);
    SmallDiv(x, Pow2(nbits));
    var layer := 0;
    while layer < |key.cw|
      invariant 0 <= layer <= |key.cw|
      invariant Node(s, t) == NodeAt(prg, key.cw, key.root, layer, Ancestor(x, nbits, layer))
    {
      var cw := key.cw[layer];
      var right := Direction(x, nbits, layer);
      AncestorStep(x, nbits, layer);
      var raw := prg(Clear2(s), Idx(right));
      s, t := Clear2(Xor(raw, Mask(t, cw))), Lsb(raw) != (Flag(cw, right) && t);
      layer := layer + 1;
    }
    v := Node(s, t);
  }

  /** Single-point evaluation: the leaf of the node above the input. */
  method Eval(prg: Prg, y: Layout, key: Key, x: nat) returns (leaf: Leaf)
    requires Fits(y, key) && x < key.nitems
    ensures leaf == EvalLeaf(prg, y, key, x)
    ensures if y.Nodes? then leaf == Whole(EvalNodes(prg, y, key, x)) else LaneIs(leaf, EvalNodes(prg, y, key, x)[0], y.log, x % Pow2(y.log))
  {
    LeafAncestor(y, key.nitems, x);
    var v := Walk(prg, key, InputBits(key.nitems), x);
    var nodes := FinalNodes(prg, v, key.finalizer);
    leaf := LeafOf(y, nodes, x);
    if y.Lanes? {
      LaneOfNode(nodes[0], y.log, x % Pow2(y.log));
    }
  }
}
