// The dealer's distributed point function of mpc/dpf.hpp: the node step, the paths
// of inputs through the tree, and the depth of the tree.
module PointDpf {
  import opened Blocks
  import opened Words

  /** `prg(seed, i)` is block `i` of the PRG output: an arbitrary function. */
  type Prg = (Block, nat) -> Block

  /** A seed and its flag. */
  datatype Node = Node(s: Block, t: bool)

  /** `clear_lsb(b, 0b11)` and `clear_lsb(b)`. */
  function Clear2(b: Block): Block {
    Block(b.bits[0 := false][1 := false])
  }

  function Clear1(b: Block): Block {
    WithLsb(b, false)
  }

  /** `set_lsbs`: the two flags of a correction word. */
  function WithFlags(b: Block, left: bool, right: bool): Block {
    Block(b.bits[0 := left][1 := right])
  }

  /** The flag a correction word holds for a direction (`get_lsb` with mask 0b01 or 0b10). */
  predicate Flag(cw: Block, right: bool) {
    if right then cw.bits[1] else cw.bits[0]
  }

  function Idx(right: bool): nat {
    if right then 1 else 0
  }

  /** `traverse_`: one step down. */
  function Step(prg: Prg, cw: Block, v: Node, right: bool): Node {
    var raw := prg(Clear2(v.s), Idx(right));
    Node(Clear2(Xor(raw, Mask(v.t, cw))), Lsb(raw) != (Flag(cw, right) && v.t))
  }

  /** Node `i` of layer `d`. */
  function NodeAt(prg: Prg, cw: seq<Block>, root: Block, d: nat, i: nat): Node
    requires d <= |cw|
    decreases d
  {
    if d == 0 then Node(root, Lsb(root)) else Step(prg, cw[d - 1], NodeAt(prg, cw, root, d - 1, i / 2), i % 2 == 1)
  }

  /** How leaves are laid out in nodes: several nodes per leaf, or 2, 4 or 16 leaves per node. */
  datatype Layout = Nodes(count: nat) | Lanes(log: nat)

  predicate Sensible(y: Layout) {
    match y
    case Nodes(n) => n > 0
    case Lanes(k) => k == 1 || k == 2 || k == 4
  }

  function LeavesPerNode(y: Layout): (r: nat)
    ensures r > 0
  {
    match y
    case Nodes(_) => 1
    case Lanes(k) => Pow2(k)
  }

  function LogLeaves(y: Layout): nat {
    match y
    case Nodes(_) => 0
    case Lanes(k) => k
  }

  function NodesPerLeaf(y: Layout): nat {
    match y
    case Nodes(n) => n
    case Lanes(_) => 1
  }

  function CeilDiv(a: nat, b: nat): nat
    requires b > 0
  {
    (a + b - 1) / b
  }

  /** `depth(nitems)` and `input_bits(nitems)` with an exact logarithm. */
  function DepthOf(y: Layout, nitems: nat): nat
    requires nitems > 0
  {
    CeilDivPositive(nitems, LeavesPerNode(y));
    Log2Ceil(CeilDiv(nitems, LeavesPerNode(y)))
  }

  function InputBits(nitems: nat): nat
    requires nitems > 0
  {
    Log2Ceil(nitems)
  }

  lemma CeilDivBounds(a: nat, b: nat)
    requires b > 0
    ensures b * CeilDiv(a, b) >= a && b * CeilDiv(a, b) < a + b
  {
    var q, r := (a + b - 1) / b, (a + b - 1) % b;
    assert a + b - 1 == b * q + r && 0 <= r < b;
  }

  lemma CeilDivPositive(a: nat, b: nat)
    requires a > 0 && b > 0
    ensures CeilDiv(a, b) > 0
  {
    CeilDivBounds(a, b);
  }

  lemma ScaleBounds(p: nat, m: nat, n: nat, h: nat, q: nat)
    requires n <= p * m < n + p && h < m <= q
    ensures p * h < n <= p * q
  {
    MulMonotone(p, m, q);
    MulMonotone(p, h + 1, m);
  }

  /** Once the items need more than one node, tree depth and lane bits make up the input bits. */
  lemma DepthPlusLanes(y: Layout, nitems: nat)
    requires nitems > LeavesPerNode(y)
    ensures DepthOf(y, nitems) + LogLeaves(y) == InputBits(nitems)
  {
    var k, p := LogLeaves(y), LeavesPerNode(y);
    var m, d := CeilDiv(nitems, p), DepthOf(y, nitems);
    CeilDivBounds(nitems, p);
    if d == 0 {
      ScaleBounds(p, m, nitems, 0, 1);
    } else {
      ScaleBounds(p, m, nitems, Pow2(d - 1), Pow2(d));
      Pow2Add(k, d - 1);
      Pow2Add(k, d);
      Log2CeilUnique(nitems, d + k);
    }
  }
}
