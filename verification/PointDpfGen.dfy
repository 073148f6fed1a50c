/** Dealer key generation of mpc/dpf.hpp, and what the two keys share. */
module PointDpfGen {
  import opened Blocks
  import opened Words
  import opened PointDpf
  import opened PointDpfKeys

  datatype Result<T> = Ok(value: T) | OutOfRange

  function Raw(prg: Prg, v: Node, right: bool): Block {
    prg(Clear2(v.s), Idx(right))
  }

  /** The seed part of a correction word, from the children both parties lose. */
  function NextCw(prg: Prg, v0: Node, v1: Node, bit: bool): Block {
    Xor(Clear2(Raw(prg, v0, !bit)), Clear2(Raw(prg, v1, !bit)))
  }

  /** The flag part of a correction word for one direction. */
  predicate NextFlag(prg: Prg, v0: Node, v1: Node, bit: bool, right: bool) {
    (Lsb(Raw(prg, v0, right)) != Lsb(Raw(prg, v1, right))) != (bit == right)
  }

  /** The correction word that `gen` appends for a layer. */
  function CorrectionWord(prg: Prg, v0: Node, v1: Node, bit: bool): Block {
    WithFlags(NextCw(prg, v0, v1, bit), NextFlag(prg, v0, v1, bit, false), NextFlag(prg, v0, v1, bit, true))
  }

  lemma FlagOf(prg: Prg, v0: Node, v1: Node, bit: bool, right: bool)
    ensures Flag(CorrectionWord(prg, v0, v1, bit), right) == NextFlag(prg, v0, v1, bit, right)
  {
  }

  /** Off the path the corrected children coincide. */
  lemma LoseAgree(raw0: Block, raw1: Block, cw: Block, t: bool)
    requires Clear2(cw) == Xor(Clear2(raw0), Clear2(raw1))
    ensures Clear2(Xor(raw0, Mask(t, cw))) == Clear2(Xor(raw1, Mask(!t, cw)))
  {
    BitLaws();
    var a, b := Clear2(Xor(raw0, Mask(t, cw))), Clear2(Xor(raw1, Mask(!t, cw)));
    forall i | 0 <= i < 128 ensures a.bits[i] == b.bits[i] {
      assert Clear2(cw).bits[i] == Xor(Clear2(raw0), Clear2(raw1)).bits[i];
    }
    Extensional(a, b);
  }

  lemma FlagsCleared(a: Block, b: Block, left: bool, right: bool)
    ensures Clear2(WithFlags(Xor(Clear2(a), Clear2(b)), left, right)) == Xor(Clear2(a), Clear2(b))
  {
    BitLaws();
    Extensional(Clear2(WithFlags(Xor(Clear2(a), Clear2(b)), left, right)), Xor(Clear2(a), Clear2(b)));
  }

  /** One layer: the lost children become equal nodes, the kept children keep opposite flags. */
  lemma OneStep(prg: Prg, v0: Node, v1: Node, bit: bool)
    requires v0.t != v1.t
    ensures Step(prg, CorrectionWord(prg, v0, v1, bit), v0, !bit) == Step(prg, CorrectionWord(prg, v0, v1, bit), v1, !bit)
    ensures Step(prg, CorrectionWord(prg, v0, v1, bit), v0, bit).t != Step(prg, CorrectionWord(prg, v0, v1, bit), v1, bit).t
  {
    var cw := CorrectionWord(prg, v0, v1, bit);
    FlagOf(prg, v0, v1, bit, bit);
    FlagOf(prg, v0, v1, bit, !bit);
    var r0, r1 := Raw(prg, v0, !bit), Raw(prg, v1, !bit);
    FlagsCleared(r0, r1, NextFlag(prg, v0, v1, bit, false), NextFlag(prg, v0, v1, bit, true));
    LoseAgree(r0, r1, cw, v0.t);
  }

  /** `gen` corrects cleared seeds with the bare correction; that is the evaluator's step. */
  lemma KeepIsStep(prg: Prg, v0: Node, v1: Node, bit: bool, v: Node)
    ensures Step(prg, CorrectionWord(prg, v0, v1, bit), v, bit).s
         == Xor(Clear2(Raw(prg, v, bit)), Mask(v.t, NextCw(prg, v0, v1, bit)))
  {
    var cw, raw := CorrectionWord(prg, v0, v1, bit), Raw(prg, v, bit);
    FlagsCleared(Raw(prg, v0, !bit), Raw(prg, v1, !bit), NextFlag(prg, v0, v1, bit, false), NextFlag(prg, v0, v1, bit, true));
    MaskCleared(raw, cw, v.t);
  }

  lemma MaskCleared(raw: Block, cw: Block, t: bool)
    ensures Clear2(Xor(raw, Mask(t, cw))) == Xor(Clear2(raw), Mask(t, Clear2(cw)))
  {
    BitLaws();
    Extensional(Clear2(Xor(raw, Mask(t, cw))), Xor(Clear2(raw), Mask(t, Clear2(cw))));
  }

  /** The correction word of layer `d` is the one for the two nodes on the path of `target`. */
  predicate DealtAt(prg: Prg, cw: seq<Block>, root0: Block, root1: Block, target: nat, nbits: nat, d: nat)
    requires |cw| <= nbits && d < |cw|
  {
    cw[d] == CorrectionWord(prg, NodeAt(prg, cw, root0, d, Ancestor(target, nbits, d)),
                            NodeAt(prg, cw, root1, d, Ancestor(target, nbits, d)), Direction(target, nbits, d))
  }

  /** Off the path the two trees agree. On it the flags differ. */
  predicate Twins(v0: Node, v1: Node, onPath: bool) {
    if onPath then v0.t != v1.t else v0 == v1
  }

  lemma TwinChildren(prg: Prg, cw: Block, v0: Node, v1: Node, onPath: bool, bit: bool, right: bool)
    requires Twins(v0, v1, onPath)
    requires onPath ==> cw == CorrectionWord(prg, v0, v1, bit)
    ensures Twins(Step(prg, cw, v0, right), Step(prg, cw, v1, right), onPath && right == bit)
  {
    if onPath {
      OneStep(prg, v0, v1, bit);
    }
  }

  lemma {:induction false} TreesAgree(prg: Prg, cw: seq<Block>, root0: Block, root1: Block, target: nat, nbits: nat, d: nat, i: nat)
    requires |cw| <= nbits && d <= |cw| && target < Pow2(nbits) && Lsb(root0) != Lsb(root1)
    requires forall e :: 0 <= e < |cw| ==> DealtAt(prg, cw, root0, root1, target, nbits, e)
    requires i < Pow2(d)
    ensures Twins(NodeAt(prg, cw, root0, d, i), NodeAt(prg, cw, root1, d, i), i == Ancestor(target, nbits, d))
    decreases d
  {
    if d == 0 {
      SmallDiv(target, Pow2(nbits));
    } else {
      TreesAgree(prg, cw, root0, root1, target, nbits, d - 1, i / 2);
      assert DealtAt(prg, cw, root0, root1, target, nbits, d - 1);
      AncestorStep(target, nbits, d - 1);
      TwinChildren(prg, cw[d - 1], NodeAt(prg, cw, root0, d - 1, i / 2), NodeAt(prg, cw, root1, d - 1, i / 2),
                   i / 2 == Ancestor(target, nbits, d - 1), Direction(target, nbits, d - 1), i % 2 == 1);
    }
  }

  /** Leaf values of the layout's type. */
  predicate LeafFits(y: Layout, leaf: Leaf) {
    Sensible(y) &&
    match y
    case Nodes(n) => leaf.Whole? && |leaf.nodes| == n
    case Lanes(k) => leaf.Word? && |leaf.bits| == LaneBits(k)
  }

  function XorBits(a: seq<bool>, b: seq<bool>): (r: seq<bool>)
    requires |a| == |b|
    ensures |r| == |a|
  {
    seq(|a|, i requires 0 <= i < |a| => a[i] != b[i])
  }

  function XorBlocks(a: seq<Block>, b: seq<Block>): (r: seq<Block>)
    requires |a| == |b|
    ensures |r| == |a|
  {
    seq(|a|, i requires 0 <= i < |a| => Xor(a[i], b[i]))
  }

  function Zeros(n: nat): (r: seq<Block>)
    ensures |r| == n
  {
    seq(n, i => ZERO)
  }

  function XorLeaf(y: Layout, a: Leaf, b: Leaf): Leaf
    requires LeafFits(y, a) && LeafFits(y, b)
  {
    if y.Nodes? then Whole(XorBlocks(a.nodes, b.nodes)) else Word(XorBits(a.bits, b.bits))
  }

  function ZeroLeaf(y: Layout): Leaf {
    if y.Nodes? then Whole(Zeros(y.count)) else Word(Repeat(false, LaneBits(y.log)))
  }

  /** `make_vec`: a node that is zero except for one lane. */
  function PlaceLane(k: nat, lane: nat, bits: seq<bool>): Block
    requires (k == 1 || k == 2 || k == 4) && lane < Pow2(k) && |bits| == LaneBits(k)
  {
    LaneFits(k, lane);
    var lo := lane * LaneBits(k);
    Block(seq(128, i requires 0 <= i < 128 => lo <= i < lo + |bits| && bits[i - lo]))
  }

  /** The nodes of a leaf group that holds `val` at `target` and zero in every other lane. */
  function Payload(y: Layout, val: Leaf, target: nat): (r: seq<Block>)
    requires LeafFits(y, val)
    ensures |r| == NodesPerLeaf(y)
  {
    match y
    case Nodes(_) => val.nodes
    case Lanes(k) => [PlaceLane(k, target % Pow2(k), val.bits)]
  }

  lemma LaneXor(a: Block, b: Block, k: nat, i: nat)
    requires (k == 1 || k == 2 || k == 4) && i < Pow2(k)
    ensures Lane(Xor(a, b), k, i) == XorBits(Lane(a, k, i), Lane(b, k, i))
  {
    LaneFits(k, i);
  }

  lemma LanesApart(k: nat, i: nat, j: nat, m: int)
    requires (k == 1 || k == 2 || k == 4) && i != j
    requires i * LaneBits(k) <= m < i * LaneBits(k) + LaneBits(k)
    ensures !(j * LaneBits(k) <= m < j * LaneBits(k) + LaneBits(k))
  {
  }

  lemma LaneOfPlaced(k: nat, lane: nat, bits: seq<bool>, i: nat)
    requires (k == 1 || k == 2 || k == 4) && lane < Pow2(k) && i < Pow2(k) && |bits| == LaneBits(k)
    ensures Lane(PlaceLane(k, lane, bits), k, i) == if i == lane then bits else Repeat(false, LaneBits(k))
  {
    LaneFits(k, i);
    var b := PlaceLane(k, lane, bits);
    forall m | i * LaneBits(k) <= m < i * LaneBits(k) + LaneBits(k)
      ensures b.bits[m] == (i == lane && bits[m - i * LaneBits(k)])
    {
      if i != lane {
        LanesApart(k, i, lane, m);
      }
    }
  }

  lemma SameInput(x: nat, target: nat, p: nat)
    requires p > 0
    ensures x == target <==> x / p == target / p && x % p == target % p
  {
    assert x == p * (x / p) + x % p && target == p * (target / p) + target % p;
  }

  /** Both parties' finalizer, mixed with the pads of the two target nodes. */
  function Finalizer(prg: Prg, v0: Node, v1: Node, payload: seq<Block>): (r: seq<Block>)
    ensures |r| == |payload|
  {
    seq(|payload|, j requires 0 <= j < |payload| => Xor(payload[j], Xor(prg(Clear1(v0.s), j), prg(Clear1(v1.s), j))))
  }

  lemma PadsCancel(val: Block, p0: Block, p1: Block, t: bool)
    ensures Xor(Xor(p0, Mask(t, Xor(val, Xor(p0, p1)))), Xor(p1, Mask(!t, Xor(val, Xor(p0, p1))))) == val
  {
    BitLaws();
    Extensional(Xor(Xor(p0, Mask(t, Xor(val, Xor(p0, p1)))), Xor(p1, Mask(!t, Xor(val, Xor(p0, p1))))), val);
  }

  /** The finished nodes share the payload on the path and zero off it. */
  lemma FinalShares(prg: Prg, v0: Node, v1: Node, onPath: bool, payload: seq<Block>, finalizer: seq<Block>)
    requires Twins(v0, v1, onPath) && |finalizer| == |payload|
    requires onPath ==> finalizer == Finalizer(prg, v0, v1, payload)
    ensures XorBlocks(FinalNodes(prg, v0, finalizer), FinalNodes(prg, v1, finalizer)) == if onPath then payload else Zeros(|payload|)
  {
    var a, b := FinalNodes(prg, v0, finalizer), FinalNodes(prg, v1, finalizer);
    forall j | 0 <= j < |payload| ensures Xor(a[j], b[j]) == if onPath then payload[j] else ZERO {
      if onPath {
        PadsCancel(payload[j], prg(Clear1(v0.s), j), prg(Clear1(v1.s), j), v0.t);
      } else {
        XorSelf(a[j]);
      }
    }
  }

  lemma LeafFitsOf(y: Layout, nodes: seq<Block>, x: nat)
    requires Sensible(y) && |nodes| == NodesPerLeaf(y)
    ensures LeafFits(y, LeafOf(y, nodes, x))
  {
  }

  lemma LeafXor(y: Layout, a: seq<Block>, b: seq<Block>, x: nat)
    requires Sensible(y) && |a| == |b| == NodesPerLeaf(y)
    ensures LeafFits(y, LeafOf(y, a, x)) && LeafFits(y, LeafOf(y, b, x))
    ensures XorLeaf(y, LeafOf(y, a, x), LeafOf(y, b, x)) == LeafOf(y, XorBlocks(a, b), x)
  {
    LeafFitsOf(y, a, x);
    LeafFitsOf(y, b, x);
    if y.Lanes? {
      LaneXor(a[0], b[0], y.log, x % Pow2(y.log));
    }
  }

  lemma LeafOfZeros(y: Layout, x: nat)
    requires Sensible(y)
    ensures LeafOf(y, Zeros(NodesPerLeaf(y)), x) == ZeroLeaf(y)
  {
    if y.Lanes? {
      LaneFits(y.log, x % Pow2(y.log));
      assert Lane(ZERO, y.log, x % Pow2(y.log)) == Repeat(false, LaneBits(y.log));
    }
  }

  lemma LeafOfPayload(y: Layout, val: Leaf, target: nat, x: nat)
    requires LeafFits(y, val) && x / LeavesPerNode(y) == target / LeavesPerNode(y)
    ensures LeafOf(y, Payload(y, val, target), x) == if x == target then val else ZeroLeaf(y)
  {
    if y.Lanes? {
      SameInput(x, target, LeavesPerNode(y));
      LaneOfPlaced(y.log, target % Pow2(y.log), val.bits, x % Pow2(y.log));
    }
  }

  lemma DivBelow(x: nat, p: nat, q: nat)
    requires p > 0 && x < p * q
    ensures x / p < q
  {
    var d, r := x / p, x % p;
    assert x == p * d + r && 0 <= r < p;
    if q <= d {
      MulMonotone(p, q, d);
      assert false;
    }
  }

  /** Every input below `nitems` lies under a node of the leaf layer. */
  lemma NodeInLayer(y: Layout, nitems: nat, x: nat)
    requires x < nitems
    ensures x / LeavesPerNode(y) < Pow2(DepthOf(y, nitems))
  {
    var p := LeavesPerNode(y);
    var m := CeilDiv(nitems, p);
    CeilDivBounds(nitems, p);
    CeilDivPositive(nitems, p);
    MulMonotone(p, m, Pow2(DepthOf(y, nitems)));
    DivBelow(x, p, Pow2(DepthOf(y, nitems)));
  }

  /** The correction words of every layer belong to the path of `target`. */
  predicate DealtCw(prg: Prg, cw: seq<Block>, root0: Block, root1: Block, target: nat, nbits: nat) {
    |cw| <= nbits && forall e :: 0 <= e < |cw| ==> DealtAt(prg, cw, root0, root1, target, nbits, e)
  }

  function PathNode(prg: Prg, cw: seq<Block>, root: Block, target: nat, nbits: nat): Node
    requires |cw| <= nbits
  {
    NodeAt(prg, cw, root, |cw|, Ancestor(target, nbits, |cw|))
  }

  /** What `gen` hands to the two parties, given their random roots. */
  predicate KeyPair(prg: Prg, y: Layout, k0: Key, k1: Key, target: nat, val: Leaf) {
    && Fits(y, k0) && LeafFits(y, val)
    && k1 == k0.(root := k1.root) && Lsb(k0.root) != Lsb(k1.root) && target < k0.nitems
    && DealtCw(prg, k0.cw, k0.root, k1.root, target, InputBits(k0.nitems))
    && k0.finalizer == Finalizer(prg, PathNode(prg, k0.cw, k0.root, target, InputBits(k0.nitems)),
                                 PathNode(prg, k0.cw, k1.root, target, InputBits(k0.nitems)), Payload(y, val, target))
  }

  predicate PointAt(y: Layout, a: Leaf, b: Leaf, hit: bool, val: Leaf) {
    LeafFits(y, a) && LeafFits(y, b) && LeafFits(y, val) && XorLeaf(y, a, b) == if hit then val else ZeroLeaf(y)
  }

  lemma BlockShares(a: Block, b: Block, r: Block)
    requires Xor(a, b) == r
    ensures forall i :: 0 <= i < 128 ==> (a.bits[i] != b.bits[i]) == r.bits[i]
  {
    forall i | 0 <= i < 128 ensures (a.bits[i] != b.bits[i]) == r.bits[i] {
      assert Xor(a, b).bits[i] == (a.bits[i] != b.bits[i]);
    }
  }

  /** Bit by bit: the leaves XOR to `val` at the target and to zero elsewhere. */
  lemma PointBits(y: Layout, a: Leaf, b: Leaf, hit: bool, val: Leaf)
    requires PointAt(y, a, b, hit, val)
    ensures y.Lanes? ==> a.Word? && b.Word? && val.Word? && |a.bits| == |b.bits| == |val.bits|
    ensures y.Lanes? ==> forall j :: 0 <= j < |val.bits| ==> (a.bits[j] != b.bits[j]) == (hit && val.bits[j])
    ensures y.Nodes? ==> a.Whole? && b.Whole? && val.Whole? && |a.nodes| == |b.nodes| == |val.nodes|
    ensures y.Nodes? ==> forall j, i :: 0 <= j < |val.nodes| && 0 <= i < 128 ==>
              (a.nodes[j].bits[i] != b.nodes[j].bits[i]) == (hit && val.nodes[j].bits[i])
  {
    var r := if hit then val else ZeroLeaf(y);
    if y.Lanes? {
      forall j | 0 <= j < |val.bits| ensures (a.bits[j] != b.bits[j]) == (hit && val.bits[j]) {
        assert r.bits == XorBits(a.bits, b.bits) && r.bits[j] == (a.bits[j] != b.bits[j]);
        assert !hit ==> r.bits == Repeat(false, LaneBits(y.log));
      }
    } else {
      forall j, i | 0 <= j < |val.nodes| && 0 <= i < 128 ensures (a.nodes[j].bits[i] != b.nodes[j].bits[i]) == (hit && val.nodes[j].bits[i]) {
        assert r.nodes == XorBlocks(a.nodes, b.nodes);
        BlockShares(a.nodes[j], b.nodes[j], r.nodes[j]);
        assert !hit ==> r.nodes[j] == ZERO && !ZERO.bits[i];
      }
    }
  }

  /** The two keys' evaluations share `val` at the target and zero everywhere else. */
  lemma KeysSharePoint(prg: Prg, y: Layout, k0: Key, k1: Key, target: nat, val: Leaf, x: nat)
    requires KeyPair(prg, y, k0, k1, target, val) && x < k0.nitems
    ensures PointAt(y, EvalLeaf(prg, y, k0, x), EvalLeaf(prg, y, k1, x), x == target, val)
  {
    var p, nbits, d := LeavesPerNode(y), InputBits(k0.nitems), |k0.cw|;
    var i := Div(x, p);
    NodeInLayer(y, k0.nitems, x);
    LeafAncestor(y, k0.nitems, target);
    TreesAgree(prg, k0.cw, k0.root, k1.root, target, nbits, d, i);
    var v0, v1 := NodeAt(prg, k0.cw, k0.root, d, i), NodeAt(prg, k0.cw, k1.root, d, i);
    LeafShares(prg, y, v0, v1, k0.finalizer, target, val, x);
  }

  lemma LeafShares(prg: Prg, y: Layout, v0: Node, v1: Node, finalizer: seq<Block>, target: nat, val: Leaf, x: nat)
    requires LeafFits(y, val) && |finalizer| == NodesPerLeaf(y)
    requires Twins(v0, v1, x / LeavesPerNode(y) == target / LeavesPerNode(y))
    requires x / LeavesPerNode(y) == target / LeavesPerNode(y) ==> finalizer == Finalizer(prg, v0, v1, Payload(y, val, target))
    ensures PointAt(y, LeafOf(y, FinalNodes(prg, v0, finalizer), x), LeafOf(y, FinalNodes(prg, v1, finalizer), x), x == target, val)
  {
    var onPath := x / LeavesPerNode(y) == target / LeavesPerNode(y);
    FinalShares(prg, v0, v1, onPath, Payload(y, val, target), finalizer);
    LeafXor(y, FinalNodes(prg, v0, finalizer), FinalNodes(prg, v1, finalizer), x);
    if onPath {
      LeafOfPayload(y, val, target, x);
    } else {
      LeafOfZeros(y, x);
    }
  }

  lemma {:induction false} NodeAtPrefix(prg: Prg, cw: seq<Block>, c: Block, root: Block, d: nat, i: nat)
    requires d <= |cw|
    ensures NodeAt(prg, cw + [c], root, d, i) == NodeAt(prg, cw, root, d, i)
    decreases d
  {
    if d > 0 {
      NodeAtPrefix(prg, cw, c, root, d - 1, i / 2);
    }
  }

  lemma ExtendDealt(prg: Prg, cw: seq<Block>, c: Block, root0: Block, root1: Block, target: nat, nbits: nat)
    requires DealtCw(prg, cw, root0, root1, target, nbits) && |cw| < nbits
    requires c == CorrectionWord(prg, PathNode(prg, cw, root0, target, nbits), PathNode(prg, cw, root1, target, nbits), Direction(target, nbits, |cw|))
    ensures DealtCw(prg, cw + [c], root0, root1, target, nbits)
    ensures PathNode(prg, cw + [c], root0, target, nbits) == Step(prg, c, PathNode(prg, cw, root0, target, nbits), Direction(target, nbits, |cw|))
    ensures PathNode(prg, cw + [c], root1, target, nbits) == Step(prg, c, PathNode(prg, cw, root1, target, nbits), Direction(target, nbits, |cw|))
  {
    forall e | 0 <= e <= |cw| ensures DealtAt(prg, cw + [c], root0, root1, target, nbits, e) {
      NodeAtPrefix(prg, cw, c, root0, e, Ancestor(target, nbits, e));
      NodeAtPrefix(prg, cw, c, root1, e, Ancestor(target, nbits, e));
      if e < |cw| {
        assert DealtAt(prg, cw, root0, root1, target, nbits, e);
      }
    }
    ExtendPath(prg, cw, c, root0, target, nbits);
    ExtendPath(prg, cw, c, root1, target, nbits);
  }

  lemma ExtendPath(prg: Prg, cw: seq<Block>, c: Block, root: Block, target: nat, nbits: nat)
    requires |cw| < nbits
    ensures PathNode(prg, cw + [c], root, target, nbits) == Step(prg, c, PathNode(prg, cw, root, target, nbits), Direction(target, nbits, |cw|))
  {
    NodeAtPrefix(prg, cw, c, root, |cw|, Ancestor(target, nbits, |cw|));
    AncestorStep(target, nbits, |cw|);
  }

  /** The loop of `gen` over the layers. */
  method DealLayers(prg: Prg, depth: nat, nbits: nat, target: nat, root0: Block, root1: Block)
    returns (cw: seq<Block>, v0: Node, v1: Node)
    requires depth <= nbits && target < Pow2(nbits) && Lsb(root0) != Lsb(root1)
    ensures |cw| == depth && DealtCw(prg, cw, root0, root1, target, nbits)
    ensures v0 == PathNode(prg, cw, root0, target, nbits) && v1 == PathNode(prg, cw, root1, target, nbits)
  {
    cw, v0, v1 := [], Node(root0, Lsb(root0)), Node(root1, Lsb(root1));
    while |cw| < depth
      invariant |cw| <= depth && DealtCw(prg, cw, root0, root1, target, nbits)
      invariant v0 == PathNode(prg, cw, root0, target, nbits) && v1 == PathNode(prg, cw, root1, target, nbits)
    {
      var bit := Direction(target, nbits, |cw|);
      var nextcw := NextCw(prg, v0, v1, bit);
      var flagL, flagR := NextFlag(prg, v0, v1, bit, false), NextFlag(prg, v0, v1, bit, true);
      var c := WithFlags(nextcw, flagL, flagR);
      ExtendDealt(prg, cw, c, root0, root1, target, nbits);
      KeepIsStep(prg, v0, v1, bit, v0);
      KeepIsStep(prg, v0, v1, bit, v1);
      FlagOf(prg, v0, v1, bit, bit);
      var flag := if bit then flagR else flagL;
      v0, v1 := Node(Xor(Clear2(Raw(prg, v0, bit)), Mask(v0.t, nextcw)), Lsb(Raw(prg, v0, bit)) != (v0.t && flag)),
                Node(Xor(Clear2(Raw(prg, v1, bit)), Mask(v1.t, nextcw)), Lsb(Raw(prg, v1, bit)) != (v1.t && flag));
      cw := cw + [c];
    }
  }

  /** `make_finalizer` for the leaves it supports: one whole node, or the lane of a node. */
  method MakeFinalizer(prg: Prg, y: Layout, target: nat, val: Leaf, v0: Node, v1: Node) returns (finalizer: seq<Block>)
    requires LeafFits(y, val) && NodesPerLeaf(y) == 1
    ensures finalizer == Finalizer(prg, v0, v1, Payload(y, val, target))
  {
    var vec := if y.Nodes? then val.nodes else [PlaceLane(y.log, target % Pow2(y.log), val.bits)];
    finalizer := [];
    while |finalizer| < |vec|
      invariant |finalizer| <= |vec|
      invariant finalizer == Finalizer(prg, v0, v1, vec)[..|finalizer|]
    {
      var j := |finalizer|;
      finalizer := finalizer + [Xor(vec[j], Xor(prg(Clear1(v0.s), j), prg(Clear1(v1.s), j)))];
    }
  }

  /** `gen` with its two random roots: refused exactly when the target is out of range. */
  method Gen(prg: Prg, y: Layout, nitems: nat, target: nat, val: Leaf, random0: Block, random1: Block)
    returns (r: Result<(Key, Key)>)
    requires LeafFits(y, val) && NodesPerLeaf(y) == 1
    ensures r.OutOfRange? <==> nitems <= target
    ensures r.Ok? ==> KeyPair(prg, y, r.value.0, r.value.1, target, val) && r.value.0.nitems == nitems
    ensures r.Ok? ==> r.value.0.root == random0 && r.value.1.root == WithLsb(random1, !Lsb(random0))
  {
    if nitems <= target {
      return OutOfRange;
    }
    var root1 := WithLsb(random1, !Lsb(random0));
    var depth, nbits := DepthOf(y, nitems), InputBits(nitems);
    DepthBelowBits(y, nitems);
    var cw, v0, v1 := DealLayers(prg, depth, nbits, target, random0, root1);
    var finalizer := MakeFinalizer(prg, y, target, val, v0, v1);
    r := Ok((Key(nitems, random0, cw, finalizer), Key(nitems, root1, cw, finalizer)));
  }

  /** Dealing and evaluating: for any roots, the evaluations at every input share the point function. */
  method GenThenEval(prg: Prg, y: Layout, nitems: nat, target: nat, val: Leaf, random0: Block, random1: Block, x: nat)
    returns (a: Leaf, b: Leaf)
    requires LeafFits(y, val) && NodesPerLeaf(y) == 1 && target < nitems && x < nitems
    ensures PointAt(y, a, b, x == target, val)
    ensures y.Lanes? ==> |a.bits| == |b.bits| == |val.bits| && forall j :: 0 <= j < |val.bits| ==> (a.bits[j] != b.bits[j]) == (x == target && val.bits[j])
    ensures y.Nodes? ==> |a.nodes| == |b.nodes| == |val.nodes| && forall j, i :: 0 <= j < |val.nodes| && 0 <= i < 128 ==>
              (a.nodes[j].bits[i] != b.nodes[j].bits[i]) == (x == target && val.nodes[j].bits[i])
  {
    var r := Gen(prg, y, nitems, target, val, random0, random1);
    a := Eval(prg, y, r.value.0, x);
    b := Eval(prg, y, r.value.1, x);
    KeysSharePoint(prg, y, r.value.0, r.value.1, target, val, x);
    PointBits(y, a, b, x == target, val);
  }
}
