/** The in-place finalizer of mpc/dpf.hpp and the whole of `__evalinterval(0, to)`. */
module PointDpfPrefix {
  import opened Blocks
  import opened Words
  import opened PointDpf
  import opened PointDpfKeys
  import opened PointDpfGen
  import opened PointDpfInterval

  /** The finished nodes of the first `n` leaf groups, one after the other. */
  function FinalAll(prg: Prg, lev: seq<Node>, finalizer: seq<Block>, n: nat): (r: seq<Block>)
    requires n <= |lev|
    ensures |r| == n * |finalizer|
  {
    if n == 0 then [] else FinalAll(prg, lev, finalizer, n - 1) + FinalNodes(prg, lev[n - 1], finalizer)
  }

  lemma GroupFits(k: nat, n: nat, w: nat)
    requires k < n
    ensures 0 <= k * w && k * w + w <= n * w
  {
    MulMonotone(w, k + 1, n);
    assert k * w + w == w * (k + 1) && w * n == n * w;
  }

  /** Leaf group `k` of the finished nodes. */
  lemma {:induction false} GroupOf(prg: Prg, lev: seq<Node>, finalizer: seq<Block>, n: nat, k: nat)
    requires k < n <= |lev|
    ensures 0 <= k * |finalizer| && k * |finalizer| + |finalizer| <= n * |finalizer|
    ensures FinalAll(prg, lev, finalizer, n)[k * |finalizer|..k * |finalizer| + |finalizer|] == FinalNodes(prg, lev[k], finalizer)
    decreases n
  {
    var w := |finalizer|;
    GroupFits(k, n, w);
    if k < n - 1 {
      GroupOf(prg, lev, finalizer, n - 1, k);
      GroupFits(k, n - 1, w);
      var a, b := FinalAll(prg, lev, finalizer, n - 1), FinalNodes(prg, lev[n - 1], finalizer);
      assert (a + b)[k * w..k * w + w] == a[k * w..k * w + w];
    }
  }

  /** The next group ends before the first node that is still to be read. */
  lemma GroupBeforeUnread(i: nat, m: nat, w: nat)
    requires i < m && w > 0
    ensures i * w + w <= m * (w - 1) + i + 1
  {
    MulMonotone(w - 1, i + 1, m);
    assert (w - 1) * (i + 1) == i * w + w - i - 1;
    assert (w - 1) * m == m * (w - 1);
  }

  /** `stretch_leaf` into the group at `o`, then the finalizer mixed in under the flag. */
  method FinalizeGroup(prg: Prg, finalizer: seq<Block>, output: array<Block>, o: nat, v: Node)
    requires o + |finalizer| <= output.Length
    modifies output
    ensures output[..] == old(output[..o]) + FinalNodes(prg, v, finalizer) + old(output[o + |finalizer|..])
  {
    var w := |finalizer|;
    var j := 0;
    while j < w
      invariant 0 <= j <= w
      invariant forall q :: 0 <= q < output.Length && !(o <= q < o + j) ==> output[q] == old(output[q])
      invariant forall q :: 0 <= q < j ==> output[o + q] == prg(Clear1(v.s), q)
    {
      output[o + j] := prg(Clear1(v.s), j);
      j := j + 1;
    }
    j := 0;
    while j < w
      invariant 0 <= j <= w
      invariant forall q :: 0 <= q < output.Length && !(o <= q < o + w) ==> output[q] == old(output[q])
      invariant forall q :: j <= q < w ==> output[o + q] == prg(Clear1(v.s), q)
      invariant forall q :: 0 <= q < j ==> output[o + q] == FinalNodes(prg, v, finalizer)[q]
    {
      output[o + j] := Xor(output[o + j], Mask(v.t, finalizer[j]));
      j := j + 1;
    }
    ghost var f := FinalNodes(prg, v, finalizer);
    assert forall q :: o <= q < o + w ==> output[q] == f[q - o] by {
      forall q | o <= q < o + w ensures output[q] == f[q - o] {
        assert output[o + (q - o)] == f[q - o];
      }
    }
  }

  /** Groups before `i` are finished; the nodes from `i` on still wait at `base`. */
  predicate Finishing(prg: Prg, s: seq<Block>, base: nat, lev: seq<Node>, finalizer: seq<Block>, i: nat) {
    && i <= |lev| && base + |lev| <= |s| && i * |finalizer| <= |s|
    && s[..i * |finalizer|] == FinalAll(prg, lev, finalizer, i)
    && (forall q {:trigger lev[q]} :: i <= q < |lev| ==> s[base + q] == lev[q].s)
  }

  lemma FinishGroup(prg: Prg, s: seq<Block>, base: nat, lev: seq<Node>, finalizer: seq<Block>, i: nat, o: nat)
    requires Finishing(prg, s, base, lev, finalizer, i) && i < |lev| && o == i * |finalizer|
    requires o + |finalizer| <= |s| && o + |finalizer| <= base + i + 1
    ensures Finishing(prg, s[..o] + FinalNodes(prg, lev[i], finalizer) + s[o + |finalizer|..], base, lev, finalizer, i + 1)
  {
    var w, f := |finalizer|, FinalNodes(prg, lev[i], finalizer);
    var r := s[..o] + f + s[o + w..];
    assert (i + 1) * w == o + w;
    assert r[..o + w] == s[..o] + f;
    forall q | i + 1 <= q < |lev| ensures r[base + q] == lev[q].s {
      assert r[base + q] == s[base + q];
    }
  }

  method FinalizeNext(prg: Prg, finalizer: seq<Block>, output: array<Block>, flags: array<bool>, base: nat, i: nat, o: nat, ghost lev: seq<Node>)
    requires Finishing(prg, output[..], base, lev, finalizer, i) && i < |lev| == flags.Length && o == i * |finalizer|
    requires o + |finalizer| <= output.Length && o + |finalizer| <= base + i + 1 && flags[i] == lev[i].t
    modifies output
    ensures Finishing(prg, output[..], base, lev, finalizer, i + 1)
  {
    var v := Node(output[base + i], flags[i]);
    assert lev[i] == v;
    FinishGroup(prg, output[..], base, lev, finalizer, i, o);
    FinalizeGroup(prg, finalizer, output, o, v);
  }

  /** `finalize` on the leaf nodes, which lie in the last part of the output it fills. */
  method Finalize(prg: Prg, finalizer: seq<Block>, output: array<Block>, flags: array<bool>, base: nat, m: nat, ghost lev: seq<Node>)
    requires |finalizer| > 0 && |lev| == m == flags.Length && base == m * (|finalizer| - 1) && output.Length == m * |finalizer|
    requires Holds(output[..], flags[..], base, 0, lev, 0, m) && base + m == output.Length
    modifies output
    ensures output[..] == FinalAll(prg, lev, finalizer, m)
  {
    var w, i := |finalizer|, 0;
    ghost var t := flags[..];
    assert 0 * w == 0;
    while i < m
      invariant 0 <= i <= m && flags[..] == t
      invariant Finishing(prg, output[..], base, lev, finalizer, i)
    {
      GroupFits(i, m, w);
      GroupBeforeUnread(i, m, w);
      assert t[i] == lev[i].t;
      FinalizeNext(prg, finalizer, output, flags, base, i, Times(i, w), lev);
      i := i + 1;
    }
  }

  function Times(i: nat, w: nat): (r: nat)
    ensures r == i * w
  {
    MulMonotone(i, 0, w);
    i * w
  }

  /** `nodes_in_interval(0, to)`. */
  function NodesTo(y: Layout, to: nat): (m: nat)
    ensures m > 0
  {
    CeilDivPositive(to + 1, LeavesPerNode(y));
    CeilDiv(to + 1, LeavesPerNode(y))
  }

  /** The leaf of input `x` in an array of finished nodes. */
  function LeafIn(y: Layout, nodes: seq<Block>, m: nat, x: nat): Leaf
    requires Sensible(y) && |nodes| == m * NodesPerLeaf(y) && x / LeavesPerNode(y) < m
  {
    var g, w := x / LeavesPerNode(y), NodesPerLeaf(y);
    GroupFits(g, m, w);
    LeafOf(y, nodes[g * w..g * w + w], x)
  }

  predicate LeafDone(prg: Prg, y: Layout, key: Key, nodes: seq<Block>, m: nat, x: nat) {
    && Fits(y, key) && |nodes| == m * NodesPerLeaf(y) && x / LeavesPerNode(y) < m
    && LeafIn(y, nodes, m, x) == EvalLeaf(prg, y, key, x)
  }

  predicate FlagDone(prg: Prg, key: Key, flags: seq<bool>, i: nat) {
    i < |flags| && flags[i] == NodeAt(prg, key.cw, key.root, |key.cw|, i).t
  }

  lemma InputBelow(y: Layout, x: nat, to: nat)
    requires x <= to
    ensures x / LeavesPerNode(y) < NodesTo(y, to)
  {
    CeilDivBounds(to + 1, LeavesPerNode(y));
    DivBelow(x, LeavesPerNode(y), NodesTo(y, to));
  }

  lemma NodesWithinTree(y: Layout, to: nat, nitems: nat)
    requires to < nitems
    ensures NodesTo(y, to) <= Pow2(DepthOf(y, nitems))
  {
    var p := LeavesPerNode(y);
    CeilDivBounds(to + 1, p);
    CeilDivBounds(nitems, p);
    var a, b := NodesTo(y, to), CeilDiv(nitems, p);
    if b < a {
      MulMonotone(p, b + 1, a);
      assert false;
    }
  }

  lemma LeafFromLayer(prg: Prg, y: Layout, key: Key, lev: seq<Node>, m: nat, x: nat)
    requires Fits(y, key) && |lev| == m && IsLayer(prg, key, |key.cw|, lev) && x / LeavesPerNode(y) < m
    ensures LeafDone(prg, y, key, FinalAll(prg, lev, key.finalizer, m), m, x)
  {
    var g := Div(x, LeavesPerNode(y));
    GroupOf(prg, lev, key.finalizer, m, g);
    LeafInGroup(y, FinalAll(prg, lev, key.finalizer, m), m, x, FinalNodes(prg, lev[g], key.finalizer));
  }

  lemma LeafInGroup(y: Layout, nodes: seq<Block>, m: nat, x: nat, group: seq<Block>)
    requires Sensible(y) && |nodes| == m * NodesPerLeaf(y) && x / LeavesPerNode(y) < m && |group| == NodesPerLeaf(y)
    requires 0 <= x / LeavesPerNode(y) * |group| && x / LeavesPerNode(y) * |group| + |group| <= |nodes|
    requires nodes[x / LeavesPerNode(y) * |group|..x / LeavesPerNode(y) * |group| + |group|] == group
    ensures LeafIn(y, nodes, m, x) == LeafOf(y, group, x)
  {
  }

  /** Every input up to `to` ends with its `eval` in the output, and every leaf node with its flag. */
  predicate PrefixDone(prg: Prg, y: Layout, key: Key, to: nat, nodes: seq<Block>, flags: seq<bool>) {
    && (forall x :: 0 <= x <= to ==> LeafDone(prg, y, key, nodes, NodesTo(y, to), x))
    && (forall i :: 0 <= i < NodesTo(y, to) ==> FlagDone(prg, key, flags, i))
  }

  lemma PrefixFromLayer(prg: Prg, y: Layout, key: Key, to: nat, lev: seq<Node>, nodes: seq<Block>, flags: seq<bool>)
    requires Fits(y, key) && |lev| == NodesTo(y, to) == |flags| && IsLayer(prg, key, |key.cw|, lev)
    requires nodes == FinalAll(prg, lev, key.finalizer, |lev|)
    requires forall q {:trigger lev[q]} :: 0 <= q < |lev| ==> flags[q] == lev[q].t
    ensures PrefixDone(prg, y, key, to, nodes, flags)
  {
    forall x | 0 <= x <= to ensures LeafDone(prg, y, key, nodes, NodesTo(y, to), x) {
      InputBelow(y, x, to);
      LeafFromLayer(prg, y, key, lev, NodesTo(y, to), x);
    }
    forall i | 0 <= i < NodesTo(y, to) ensures FlagDone(prg, key, flags, i) {
      assert lev[i] == NodeAt(prg, key.cw, key.root, |key.cw|, i);
    }
  }

  /** Where the layers start, so that the leaf nodes end the output. */
  function Base(m: nat, w: nat): (base: nat)
    requires w > 0
    ensures base == m * (w - 1) && base + m == m * w
  {
    MulMonotone(m, 0, w - 1);
    m * (w - 1)
  }

  predicate WholeIs(leaf: Leaf, nodes: seq<Block>, n: nat, at: int) {
    leaf.Whole? && |leaf.nodes| == n && 0 <= at <= at + n <= |nodes| && leaf.nodes == nodes[at..at + n]
  }

  /** Where the leaf of input `x` lies: `n` nodes from node `n * x` on, or a lane of the node it shares with its neighbours. */
  predicate LeafAt(y: Layout, nodes: seq<Block>, x: nat, leaf: Leaf) {
    match y
    case Nodes(n) => WholeIs(leaf, nodes, n, x * n)
    case Lanes(k) => Div(x, Pow2(k)) < |nodes| && LaneIs(leaf, nodes[Div(x, Pow2(k))], k, x % Pow2(k))
  }

  lemma LeafPlace(y: Layout, nodes: seq<Block>, m: nat, x: nat)
    requires Sensible(y) && |nodes| == m * NodesPerLeaf(y) && x / LeavesPerNode(y) < m
    ensures LeafAt(y, nodes, x, LeafIn(y, nodes, m, x))
  {
    var g, w := x / LeavesPerNode(y), NodesPerLeaf(y);
    GroupFits(g, m, w);
    if y.Lanes? {
      assert nodes[g * w..g * w + w][0] == nodes[g];
      LaneOfNode(nodes[g], y.log, x % Pow2(y.log));
    }
  }

  lemma LeavesAt(prg: Prg, y: Layout, key: Key, to: nat, nodes: seq<Block>, flags: seq<bool>)
    requires Fits(y, key) && PrefixDone(prg, y, key, to, nodes, flags)
    ensures forall x :: 0 <= x <= to ==> LeafAt(y, nodes, x, EvalLeaf(prg, y, key, x))
  {
    forall x | 0 <= x <= to ensures LeafAt(y, nodes, x, EvalLeaf(prg, y, key, x)) {
      assert LeafDone(prg, y, key, nodes, NodesTo(y, to), x);
      LeafPlace(y, nodes, NodesTo(y, to), x);
    }
  }

  /** In-place evaluation of the inputs up to `to`, in an output of exactly the nodes they need. */
  method EvalPrefix(prg: Prg, y: Layout, key: Key, to: nat, output: array<Block>, flags: array<bool>)
    requires Fits(y, key) && to < key.nitems
    requires output.Length == NodesTo(y, to) * NodesPerLeaf(y) && flags.Length == NodesTo(y, to)
    modifies output, flags
    ensures PrefixDone(prg, y, key, to, output[..], flags[..])
    ensures forall x :: 0 <= x <= to ==> LeafAt(y, output[..], x, EvalLeaf(prg, y, key, x))
  {
    var m, w := NodesTo(y, to), NodesPerLeaf(y);
    NodesWithinTree(y, to, key.nitems);
    var base := Base(m, w);
    ghost var lev := ExpandLayers(prg, key, output, flags, base, m);
    Finalize(prg, key.finalizer, output, flags, base, m, lev);
    PrefixFromLayer(prg, y, key, to, lev, output[..], flags[..]);
    LeavesAt(prg, y, key, to, output[..], flags[..]);
  }

  /** The two parties' prefix evaluations share the point function on every input up to `to`. */
  lemma PrefixesShare(prg: Prg, y: Layout, k0: Key, k1: Key, target: nat, val: Leaf, to: nat, x: nat,
                      nodes0: seq<Block>, flags0: seq<bool>, nodes1: seq<Block>, flags1: seq<bool>)
    requires KeyPair(prg, y, k0, k1, target, val) && x <= to < k0.nitems
    requires PrefixDone(prg, y, k0, to, nodes0, flags0) && PrefixDone(prg, y, k1, to, nodes1, flags1)
    ensures LeafDone(prg, y, k0, nodes0, NodesTo(y, to), x) && LeafDone(prg, y, k1, nodes1, NodesTo(y, to), x)
    ensures PointAt(y, LeafIn(y, nodes0, NodesTo(y, to), x), LeafIn(y, nodes1, NodesTo(y, to), x), x == target, val)
  {
    KeysSharePoint(prg, y, k0, k1, target, val, x);
  }

  /** Leaf nodes' flags differ exactly at the target's node. */
  lemma FlagsSharePoint(prg: Prg, y: Layout, k0: Key, k1: Key, target: nat, val: Leaf, to: nat, i: nat,
                        nodes0: seq<Block>, flags0: seq<bool>, nodes1: seq<Block>, flags1: seq<bool>)
    requires KeyPair(prg, y, k0, k1, target, val) && to < k0.nitems && i < NodesTo(y, to)
    requires PrefixDone(prg, y, k0, to, nodes0, flags0) && PrefixDone(prg, y, k1, to, nodes1, flags1)
    ensures FlagDone(prg, k0, flags0, i) && FlagDone(prg, k1, flags1, i)
    ensures (flags0[i] != flags1[i]) <==> i == target / LeavesPerNode(y)
  {
    assert FlagDone(prg, k0, flags0, i) && FlagDone(prg, k1, flags1, i);
    NodesWithinTree(y, to, k0.nitems);
    LeafAncestor(y, k0.nitems, target);
    TreesAgree(prg, k0.cw, k0.root, k1.root, target, InputBits(k0.nitems), |k0.cw|, i);
  }
}
