// `__evalinterval(0, to)` of mpc/dpf.hpp: full-prefix evaluation that uses the
// output array itself as scratch space for two overlapping layers.
module PointDpfInterval {
  import opened Blocks
  import opened Words
  import opened PointDpf
  import opened PointDpfKeys

  /** The first `n` nodes of the layer below `lev`. */
  function NextLayer(prg: Prg, cw: Block, lev: seq<Node>, n: nat): (r: seq<Node>)
    requires n <= 2 * |lev|
    ensures |r| == n
  {
    seq(n, q requires 0 <= q < n => Step(prg, cw, lev[q / 2], q % 2 == 1))
  }

  /** Nodes `lo..hi` of a layer sit at offset `base` of the seeds and `tbase` of the flags. */
  predicate Holds(s: seq<Block>, t: seq<bool>, base: nat, tbase: nat, lev: seq<Node>, lo: nat, hi: nat) {
    && hi <= |lev| && base + hi <= |s| && tbase + hi <= |t|
    && (forall q {:trigger lev[q]} :: lo <= q < hi ==> s[base + q] == lev[q].s && t[tbase + q] == lev[q].t)
  }

  /**
   A layer of `prev` nodes at `src` can be expanded into `dst` from left to right:
   the two children of node `j` never land on a later node.
   */
  predicate Apart(src: nat, dst: nat, prev: nat) {
    (dst <= src && prev <= src - dst + 1) || src + prev <= dst
  }

  /** Both layers while node `j` is next: nodes from `j` on are unread, children before `done` are written. */
  predicate Between(s: seq<Block>, t: seq<bool>, base: nat, src: nat, dst: nat, lev: seq<Node>, next: seq<Node>, j: nat, done: nat) {
    Holds(s, t, base + src, src, lev, j, |lev|) && Holds(s, t, base + dst, dst, next, 0, done)
  }

  predicate Room(s: nat, t: nat, base: nat, src: nat, dst: nat, prev: nat, cur: nat) {
    base + src + prev <= s && src + prev <= t && base + dst + cur <= s && dst + cur <= t && Apart(src, dst, prev)
  }

  /** Writing child `q` of node `j` keeps the nodes after `j` and the children before `q`. */
  lemma WriteChild(s: seq<Block>, t: seq<bool>, base: nat, src: nat, dst: nat, lev: seq<Node>, next: seq<Node>, j: nat, q: nat)
    requires Between(s, t, base, src, dst, lev, next, j + 1, q)
    requires j < |lev| && q < |next| && (q == 2 * j || q == 2 * j + 1) && Room(|s|, |t|, base, src, dst, |lev|, |next|)
    ensures Between(s[base + dst + q := next[q].s], t[dst + q := next[q].t], base, src, dst, lev, next, j + 1, q + 1)
  {
  }

  /** The unread node `j` and the children it has in the next layer. */
  lemma ReadNode(prg: Prg, cw: Block, s: seq<Block>, t: seq<bool>, base: nat, src: nat, dst: nat, lev: seq<Node>, next: seq<Node>, j: nat, v: Node)
    requires |next| <= 2 * |lev| && next == NextLayer(prg, cw, lev, |next|) && j < |lev|
    requires Between(s, t, base, src, dst, lev, next, j, 2 * j) && v == Node(s[base + src + j], t[src + j])
    ensures Between(s, t, base, src, dst, lev, next, j + 1, 2 * j)
    ensures 2 * j < |next| ==> next[2 * j] == Step(prg, cw, v, false)
    ensures 2 * j + 1 < |next| ==> next[2 * j + 1] == Step(prg, cw, v, true)
  {
    assert lev[j] == v;
  }

  method WriteNode(output: array<Block>, flags: array<bool>, base: nat, src: nat, dst: nat,
                   ghost lev: seq<Node>, ghost next: seq<Node>, j: nat, q: nat, v: Node)
    requires Between(output[..], flags[..], base, src, dst, lev, next, j + 1, q)
    requires j < |lev| && q < |next| && (q == 2 * j || q == 2 * j + 1) && v == next[q]
    requires Room(output.Length, flags.Length, base, src, dst, |lev|, |next|)
    modifies output, flags
    ensures Between(output[..], flags[..], base, src, dst, lev, next, j + 1, q + 1)
  {
    WriteChild(output[..], flags[..], base, src, dst, lev, next, j, q);
    ghost var s, t := output[..], flags[..];
    output[base + dst + q] := v.s;
    flags[dst + q] := v.t;
    assert output[..] == s[base + dst + q := v.s] && flags[..] == t[dst + q := v.t];
  }

  /** The children of one node, or its left child alone when `both` is false (`traverse2` and `traverse_`). */
  method WriteChildren(prg: Prg, cw: Block, output: array<Block>, flags: array<bool>, base: nat, src: nat, dst: nat,
                       j: nat, both: bool, ghost lev: seq<Node>, ghost next: seq<Node>)
    requires j < |lev| && |next| <= 2 * |lev| && next == NextLayer(prg, cw, lev, |next|)
    requires 2 * j + (if both then 1 else 0) < |next|
    requires Room(output.Length, flags.Length, base, src, dst, |lev|, |next|)
    requires Between(output[..], flags[..], base, src, dst, lev, next, j, 2 * j)
    modifies output, flags
    ensures Between(output[..], flags[..], base, src, dst, lev, next, j + 1, 2 * j + if both then 2 else 1)
  {
    var v := Node(output[base + src + j], flags[src + j]);
    ReadNode(prg, cw, output[..], flags[..], base, src, dst, lev, next, j, v);
    WriteNode(output, flags, base, src, dst, lev, next, j, 2 * j, Step(prg, cw, v, false));
    if both {
      WriteNode(output, flags, base, src, dst, lev, next, j, 2 * j + 1, Step(prg, cw, v, true));
    }
  }

  /** One layer of the interval: all nodes but the last have two children here, the last may have one. */
  method ExpandLayer(prg: Prg, cw: Block, output: array<Block>, flags: array<bool>, base: nat, src: nat, dst: nat,
                     prev: nat, cur: nat, ghost lev: seq<Node>)
    requires prev == |lev| > 0 && (cur == 2 * prev || cur == 2 * prev - 1)
    requires Room(output.Length, flags.Length, base, src, dst, prev, cur)
    requires Holds(output[..], flags[..], base + src, src, lev, 0, prev)
    modifies output, flags
    ensures Holds(output[..], flags[..], base + dst, dst, NextLayer(prg, cw, lev, cur), 0, cur)
  {
    ghost var next := NextLayer(prg, cw, lev, cur);
    var i, j := 0, 0;
    while j < prev - 1
      invariant 0 <= j <= prev - 1 && i == 2 * j
      invariant Between(output[..], flags[..], base, src, dst, lev, next, j, 2 * j)
    {
      WriteChildren(prg, cw, output, flags, base, src, dst, j, true, lev, next);
      j, i := j + 1, i + 2;
    }
    if prev > j {
      WriteChildren(prg, cw, output, flags, base, src, dst, j, i < cur - 1, lev, next);
    }
  }

  /** How many nodes of layer `l` lie above the first `m` nodes of the last layer. */
  function Count(m: nat, depth: nat, l: nat): nat
    requires l <= depth
    decreases depth - l
  {
    if l == depth then m else (Count(m, depth, l + 1) + 1) / 2
  }

  lemma CeilUnique(a: nat, b: nat, c: nat)
    requires b > 0 && a <= b * c < a + b
    ensures CeilDiv(a, b) == c
  {
    var r := a + b - 1 - b * c;
    DivUnique(b, a + b - 1, c, r);
  }

  lemma CeilHalf(m: nat, p: nat)
    requires p > 0
    ensures CeilDiv(m, 2 * p) == (CeilDiv(m, p) + 1) / 2
  {
    var c := CeilDiv(m, p);
    CeilDivBounds(m, p);
    var h := (c + 1) / 2;
    assert (2 * p) * h == p * (2 * h);
    if c % 2 == 0 {
      CeilUnique(m, 2 * p, h);
    } else {
      assert p * (c + 1) == p * c + p;
      CeilUnique(m, 2 * p, h);
    }
  }

  /** The code's `nodes_in_cur_layer` is that number. */
  lemma {:induction false} CountIsCeil(m: nat, depth: nat, l: nat)
    requires l <= depth
    ensures CeilDiv(m, Pow2(depth - l)) == Count(m, depth, l)
    decreases depth - l
  {
    if l == depth {
      CeilUnique(m, 1, m);
    } else {
      CountIsCeil(m, depth, l + 1);
      assert Pow2(depth - l) == 2 * Pow2(depth - l - 1);
      CeilHalf(m, Pow2(depth - l - 1));
    }
  }

  lemma {:induction false} CountBound(m: nat, depth: nat, l: nat)
    requires m > 0 && l <= depth
    ensures 0 < Count(m, depth, l) <= m && (l == depth ==> Count(m, depth, l) == m)
    ensures l < depth ==> Count(m, depth, l) <= (m + 1) / 2
    ensures l + 1 < depth ==> Count(m, depth, l) <= (m + 3) / 4
    decreases depth - l
  {
    if l < depth {
      CountBound(m, depth, l + 1);
    }
  }

  /** Where layer `l` sits: the two halves alternate so that the last layer starts at 0. */
  function Half(m: nat, depth: nat, l: nat): nat
    requires l <= depth
  {
    if (depth - l) % 2 == 0 then 0 else m / 2
  }

  lemma RoomBetween(m: nat, base: nat, even: bool, prev: nat, cur: nat)
    requires 0 < m && 0 < prev <= (m + 1) / 2 && cur <= m
    requires even ==> prev <= (m + 3) / 4 && cur <= (m + 1) / 2
    ensures Room(base + m, m, base, if even then 0 else m / 2, if even then m / 2 else 0, prev, cur)
  {
  }

  /** The two halves overlap, but never on a node that is still to be read. */
  lemma HalvesSafe(m: nat, depth: nat, l: nat, base: nat)
    requires m > 0 && l < depth
    ensures Room(base + m, m, base, Half(m, depth, l), Half(m, depth, l + 1), Count(m, depth, l), Count(m, depth, l + 1))
  {
    CountBound(m, depth, l);
    CountBound(m, depth, l + 1);
    RoomBetween(m, base, (depth - l) % 2 == 0, Count(m, depth, l), Count(m, depth, l + 1));
  }

  /** `lev` is the start of layer `l` of the key's tree. */
  predicate IsLayer(prg: Prg, key: Key, l: nat, lev: seq<Node>) {
    l <= |key.cw| && forall q :: 0 <= q < |lev| ==> lev[q] == NodeAt(prg, key.cw, key.root, l, q)
  }

  lemma LayerStep(prg: Prg, key: Key, l: nat, lev: seq<Node>, n: nat)
    requires l < |key.cw| && IsLayer(prg, key, l, lev) && n <= 2 * |lev|
    ensures IsLayer(prg, key, l + 1, NextLayer(prg, key.cw[l], lev, n))
  {
    var next := NextLayer(prg, key.cw[l], lev, n);
    forall q | 0 <= q < n ensures next[q] == NodeAt(prg, key.cw, key.root, l + 1, q) {
      assert lev[q / 2] == NodeAt(prg, key.cw, key.root, l, q / 2);
    }
  }

  lemma RootCount(m: nat, depth: nat)
    requires 0 < m <= Pow2(depth)
    ensures Count(m, depth, 0) == 1
  {
    CeilUnique(m, Pow2(depth), 1);
    CountIsCeil(m, depth, 0);
  }

  /** Layer `l` is held in its half, for the first `m` leaf nodes. */
  predicate LayerHeld(prg: Prg, key: Key, s: seq<Block>, t: seq<bool>, base: nat, m: nat, l: nat, lev: seq<Node>) {
    && l <= |key.cw| && |lev| == Count(m, |key.cw|, l) && IsLayer(prg, key, l, lev)
    && Holds(s, t, base + Half(m, |key.cw|, l), Half(m, |key.cw|, l), lev, 0, |lev|)
  }

  method PutRoot(prg: Prg, key: Key, output: array<Block>, flags: array<bool>, base: nat, m: nat) returns (cur: nat, ghost lev: seq<Node>)
    requires 0 < m <= Pow2(|key.cw|) && output.Length == base + m && flags.Length == m
    modifies output, flags
    ensures cur == Half(m, |key.cw|, 0) && LayerHeld(prg, key, output[..], flags[..], base, m, 0, lev)
  {
    RootCount(m, |key.cw|);
    cur := if |key.cw| % 2 == 0 then 0 else m / 2;
    output[base + cur] := key.root;
    flags[cur] := Lsb(key.root);
    lev := [Node(key.root, Lsb(key.root))];
  }

  method LayerSizes(m: nat, depth: nat, layer: nat, ghost base: nat) returns (prevNodes: nat, curNodes: nat)
    requires m > 0 && layer < depth
    ensures prevNodes == Count(m, depth, layer) > 0 && curNodes == Count(m, depth, layer + 1)
    ensures curNodes == 2 * prevNodes || curNodes == 2 * prevNodes - 1
    ensures Room(base + m, m, base, Half(m, depth, layer), Half(m, depth, layer + 1), prevNodes, curNodes)
  {
    prevNodes, curNodes := CeilDiv(m, Pow2(depth - layer)), CeilDiv(m, Pow2(depth - layer - 1));
    CountIsCeil(m, depth, layer);
    CountIsCeil(m, depth, layer + 1);
    CountBound(m, depth, layer);
    HalvesSafe(m, depth, layer, base);
  }

  function OtherHalf(m: nat, depth: nat, layer: nat, cur: nat): (other: nat)
    requires layer < depth && cur == Half(m, depth, layer)
    ensures other == Half(m, depth, layer + 1)
  {
    m / 2 - cur
  }

  method StepLayer(prg: Prg, key: Key, output: array<Block>, flags: array<bool>, base: nat, m: nat, layer: nat, cur: nat, ghost lev: seq<Node>)
    returns (other: nat, ghost next: seq<Node>)
    requires 0 < m && output.Length == base + m && flags.Length == m && layer < |key.cw| && cur == Half(m, |key.cw|, layer)
    requires LayerHeld(prg, key, output[..], flags[..], base, m, layer, lev)
    modifies output, flags
    ensures other == Half(m, |key.cw|, layer + 1) && LayerHeld(prg, key, output[..], flags[..], base, m, layer + 1, next)
  {
    var prevNodes, curNodes := LayerSizes(m, |key.cw|, layer, base);
    LayerStep(prg, key, layer, lev, curNodes);
    other := OtherHalf(m, |key.cw|, layer, cur);
    ExpandLayer(prg, key.cw[layer], output, flags, base, cur, other, prevNodes, curNodes, lev);
    next := NextLayer(prg, key.cw[layer], lev, curNodes);
  }

  /** All layers down to the leaf nodes. */
  method ExpandLayers(prg: Prg, key: Key, output: array<Block>, flags: array<bool>, base: nat, m: nat) returns (ghost lev: seq<Node>)
    requires 0 < m <= Pow2(|key.cw|) && output.Length == base + m && flags.Length == m
    modifies output, flags
    ensures |lev| == m && IsLayer(prg, key, |key.cw|, lev) && Holds(output[..], flags[..], base, 0, lev, 0, m)
  {
    var cur;
    cur, lev := PutRoot(prg, key, output, flags, base, m);
    var layer := 0;
    while layer != |key.cw|
      invariant 0 <= layer <= |key.cw| && cur == Half(m, |key.cw|, layer)
      invariant LayerHeld(prg, key, output[..], flags[..], base, m, layer, lev)
      decreases |key.cw| - layer
    {
      cur, lev := StepLayer(prg, key, output, flags, base, m, layer, cur, lev);
      layer := layer + 1;
    }
    LastLayer(prg, key, output[..], flags[..], base, m, lev);
  }

  lemma LastLayer(prg: Prg, key: Key, s: seq<Block>, t: seq<bool>, base: nat, m: nat, lev: seq<Node>)
    requires m > 0 && LayerHeld(prg, key, s, t, base, m, |key.cw|, lev)
    ensures |lev| == m && IsLayer(prg, key, |key.cw|, lev) && Holds(s, t, base, 0, lev, 0, m)
  {
    CountBound(m, |key.cw|, |key.cw|);
  }
}
