/** The steps of `SparseDpf::expand` (without dense levels) for one tree: the root, expanding a level, and the leaves. */
module SparseDpf {
  import opened Blocks
  import opened Words
  import opened SparseTrie
  import opened SparseTree
  import opened SparsePair

  /** Shares of the sums' correction open to the correction of the joint sums. */
  lemma OpenedSigma(z0: (Block, Block), z1: (Block, Block), p0: Block, p1: Block, a: bool)
    requires Xor(p0, p1) == Mask(!a, Xor(Xor(z0.0, z0.1), Xor(z1.0, z1.1)))
    ensures Xor(Xor(p0, z0.0), Xor(p1, z1.0)) == SigmaFor((Xor(z0.0, z1.0), Xor(z0.1, z1.1)), a)
  {
    var l, r := Xor(Xor(p0, z0.0), Xor(p1, z1.0)), SigmaFor((Xor(z0.0, z1.0), Xor(z0.1, z1.1)), a);
    BitLaws();
    forall i | 0 <= i < 128 ensures l.bits[i] == r.bits[i] {
      assert Xor(p0, p1).bits[i] == Mask(!a, Xor(Xor(z0.0, z0.1), Xor(z1.0, z1.1))).bits[i];
    }
    Extensional(l, r);
  }

  /** The invariant of one tree, with what it says about used levels. */
  ghost predicate TreeInv(c: Ctx, act: seq<bool>, known: nat, t0: Tree, t1: Tree, own: seq<(nat, nat)>, level: nat, i: nat) {
    Inv(c, act, known, t0, t1, own, level, i) && UsedOk(c.points, t0.used, own)
  }

  /** Both parties expand all entries of a level. */
  method ExpandLevel(prg: Prg, c: Ctx, t0: Tree, t1: Tree, level: nat, ghost act: seq<bool>, ghost own: seq<(nat, nat)>)
    returns (r0: Tree, r1: Tree, ghost act': seq<bool>, ghost own': seq<(nat, nat)>)
    requires 0 < level <= c.depth && TreeInv(c, act, level + 1, t0, t1, own, level, 0)
    ensures TreeInv(c, act', level + 1, r0, r1, own', level - 1, 0)
    ensures |r0.used| == |t0.used| && forall q :: level < q < |t0.used| ==> r0.used[q] == t0.used[q]
  {
    r0, r1, act', own' := t0, t1, act, own;
    var size, i := |t0.levels[level]|, 0;
    while i < size
      invariant 0 <= i <= size && TreeInv(c, act', level + 1, r0, r1, own', level, i)
      invariant level < |r0.levels| && |r0.levels[level]| == size
      invariant |r0.used| == |t0.used| && forall q :: level < q < |t0.used| ==> r0.used[q] == t0.used[q]
    {
      r0, r1, act', own' := ExpandBoth(prg, c, r0, r1, level, i, act', own');
      i := i + 1;
    }
    LevelDone(c, act', level + 1, r0, r1, own', level);
  }

  method ExpandBoth(prg: Prg, c: Ctx, t0: Tree, t1: Tree, level: nat, i: nat, ghost act: seq<bool>, ghost own: seq<(nat, nat)>)
    returns (r0: Tree, r1: Tree, ghost act': seq<bool>, ghost own': seq<(nat, nat)>)
    requires 0 < level <= c.depth && TreeInv(c, act, level + 1, t0, t1, own, level, i) && level < |t0.levels| && i < |t0.levels[level]|
    ensures TreeInv(c, act', level + 1, r0, r1, own', level, i + 1) && level < |r0.levels| && |r0.levels[level]| == |t0.levels[level]|
    ensures |r0.used| == |t0.used| && forall q :: level < q < |t0.used| ==> r0.used[q] == t0.used[q]
  {
    NextEntry(c, act, t0, t1, own, level, i);
    r0 := ExpandEntry(prg, c.points, t0, level, i, c.depth);
    r1 := ExpandEntry(prg, c.points, t1, level, i, c.depth);
    act', own' := ExpandPair(prg, c, act, t0, t1, r0, r1, own, level, i);
    UsedGrows(c.points, t0.used, own, own', level);
  }

  // ---------------------------------------------------------------- the root

  function Empty(depth: nat): (t: Tree)
    ensures Shape(t, depth)
  {
    Tree(seq(depth + 1, m => []), seq(depth + 1, m => (ZERO, ZERO)), seq(depth + 1, m => false), seq(depth + 1, m => ZERO), seq(depth + 1, m => (false, false)))
  }

  /** How the root's range splits, and where its two halves are filed. */
  datatype Root = Root(level: nat, mid: nat, l0: nat, m0: nat, l1: nat, m1: nat)

  predicate RootOk(points: seq<nat>, depth: nat, r: Root) {
    && 0 < r.level <= depth && IsSplit(points, 0, r.mid, |points|, r.level) && 0 < r.mid < |points|
    && r.l0 < r.level && r.l1 < r.level && IsSplit(points, 0, r.m0, r.mid, r.l0) && IsSplit(points, r.mid, r.m1, |points|, r.l1)
  }

  /** A party's first tree: both halves get random seeds, and the party index as tag. */
  function Rooted(points: seq<nat>, depth: nat, r: Root, party: bool, s0: Block, s1: Block): Tree
    requires RootOk(points, depth, r)
  {
    var t := Empty(depth);
    Push(Push(t.(z := t.z[r.level := (s0, s1)], used := t.used[r.level := true]),
              r.l0, Entry(0, r.m0, r.mid, false, r.level, s0, party)),
         r.l1, Entry(r.mid, r.m1, |points|, true, r.level, s1, party))
  }

  method SplitRoot(points: seq<nat>, depth: nat) returns (r: Root)
    requires Increasing(points) && |points| >= 2 && SamePrefix(points, 0, |points|, depth)
    ensures RootOk(points, depth, r)
  {
    var level, mid := Partition(points, 0, |points|, depth);
    ChildLevels(points, Entry(0, mid, |points|, false, 0, ZERO, false), level);
    var l0, m0 := Partition(points, 0, mid, level);
    var l1, m1 := Partition(points, mid, |points|, level);
    r := Root(level, mid, l0, m0, l1, m1);
  }

  function RootIndex(r: Root): nat {
    if r.l1 == r.l0 then 1 else 0
  }

  function RootOwners(n: nat, r: Root): (own: seq<(nat, nat)>)
    ensures |own| == n
  {
    seq(n, x => if x < r.mid then (r.l0, 0) else (r.l1, RootIndex(r)))
  }

  function RootAct(depth: nat, r: Root): (act: seq<bool>)
    ensures |act| == depth + 1
  {
    seq(depth + 1, q => q == r.level)
  }

  lemma RootShape(points: seq<nat>, depth: nat, r: Root, party: bool, s0: Block, s1: Block)
    requires RootOk(points, depth, r)
    ensures var t := Rooted(points, depth, r, party, s0, s1);
            && Shape(t, depth) && t.used[r.level]
            && (forall m :: 0 <= m <= depth ==> |t.levels[m]| == (if m == r.l0 then 1 else 0) + (if m == r.l1 then 1 else 0))
            && t.levels[r.l0][0] == Entry(0, r.m0, r.mid, false, r.level, s0, party)
            && t.levels[r.l1][RootIndex(r)] == Entry(r.mid, r.m1, |points|, true, r.level, s1, party)
            && (forall q :: 0 <= q <= depth ==> t.z[q] == if q == r.level then (s0, s1) else (ZERO, ZERO))
  {
  }

  lemma RootEntries(c: Ctx, r: Root, a0: Block, b0: Block, a1: Block, b1: Block)
    requires RootOk(c.points, c.depth, r) && Follows(c) && c.ia < |c.points|
    ensures var t0, t1 := Rooted(c.points, c.depth, r, false, a0, b0), Rooted(c.points, c.depth, r, true, a1, b1);
            && Shape(t0, c.depth) && Shape(t1, c.depth) && |t0.levels[r.l0]| > 0 && |t0.levels[r.l1]| > RootIndex(r)
            && EntryOk(c, RootAct(c.depth, r), c.depth + 1, t0, t1, RootOwners(|c.points|, r), r.l0, 0)
            && EntryOk(c, RootAct(c.depth, r), c.depth + 1, t0, t1, RootOwners(|c.points|, r), r.l1, RootIndex(r))
  {
    RootShape(c.points, c.depth, r, false, a0, b0);
    RootShape(c.points, c.depth, r, true, a1, b1);
    FollowsHalf(c, Entry(0, r.mid, |c.points|, false, 0, ZERO, false), r.level);
  }

  lemma RootActAt(c: Ctx, r: Root, a0: Block, b0: Block, a1: Block, b1: Block, q: nat)
    requires RootOk(c.points, c.depth, r) && c.ia < |c.points| && q <= c.depth
    requires Shape(Rooted(c.points, c.depth, r, false, a0, b0), c.depth) && Shape(Rooted(c.points, c.depth, r, true, a1, b1), c.depth)
    ensures ActAt(c, RootAct(c.depth, r), Rooted(c.points, c.depth, r, false, a0, b0), Rooted(c.points, c.depth, r, true, a1, b1),
                  RootOwners(|c.points|, r), q)
  {
    XorSelf(ZERO);
  }

  lemma RootInv(c: Ctx, r: Root, a0: Block, b0: Block, a1: Block, b1: Block)
    requires RootOk(c.points, c.depth, r) && Follows(c) && Increasing(c.points)
    ensures Inv(c, RootAct(c.depth, r), c.depth + 1, Rooted(c.points, c.depth, r, false, a0, b0), Rooted(c.points, c.depth, r, true, a1, b1),
                RootOwners(|c.points|, r), c.depth - 1, 0)
  {
    var t0, t1 := Rooted(c.points, c.depth, r, false, a0, b0), Rooted(c.points, c.depth, r, true, a1, b1);
    var act, own, l := RootAct(c.depth, r), RootOwners(|c.points|, r), c.depth - 1;
    RootShape(c.points, c.depth, r, false, a0, b0);
    RootShape(c.points, c.depth, r, true, a1, b1);
    RootEntries(c, r, a0, b0, a1, b1);
    forall m: nat, k: nat | Pending(t0, c.depth, l, 0, m, k) ensures EntryOk(c, act, c.depth + 1, t0, t1, own, m, k) {
      assert (m, k) == (r.l0, 0) || (m, k) == (r.l1, RootIndex(r));
    }
    forall q | 0 <= q <= c.depth ensures ActAt(c, act, t0, t1, own, q) {
      RootActAt(c, r, a0, b0, a1, b1, q);
    }
    forall x | 0 <= x < |own| ensures OwnerOk(c, t0, own, l, 0, x) {
    }
  }

  lemma RootUsed(c: Ctx, r: Root, s0: Block, s1: Block)
    requires RootOk(c.points, c.depth, r)
    ensures UsedOk(c.points, Rooted(c.points, c.depth, r, false, s0, s1).used, RootOwners(|c.points|, r))
  {
    NeighboursSplit(c.points, 0, r.mid, |c.points|, r.level);
    var used, own := Rooted(c.points, c.depth, r, false, s0, s1).used, RootOwners(|c.points|, r);
    forall x | 0 <= x < |own| - 1 && own[x] != own[x + 1] ensures UsedFor(c.points, used, x) {
      assert x == r.mid - 1 && used[r.level];
    }
  }

  lemma PrefixOfDomain(points: seq<nat>, depth: nat)
    requires forall i :: 0 <= i < |points| ==> points[i] < Pow2(depth)
    ensures SamePrefix(points, 0, |points|, depth)
  {
    forall i | 0 <= i < |points| ensures Shift(points[i], depth) == 0 {
      ShiftZero(points[i], depth);
    }
  }

  /** What a tree's points must satisfy. */
  ghost predicate Listed(c: Ctx) {
    && Increasing(c.points) && |c.points| >= 2 && (forall i :: 0 <= i < |c.points| ==> c.points[i] < Pow2(c.depth))
    && Follows(c)
  }

  /** Both parties' first trees. */
  method Start(c: Ctx, s0: (Block, Block), s1: (Block, Block)) returns (t0: Tree, t1: Tree, ghost act: seq<bool>, ghost own: seq<(nat, nat)>)
    requires Listed(c)
    ensures c.depth > 0 && TreeInv(c, act, c.depth + 1, t0, t1, own, c.depth - 1, 0)
  {
    PrefixOfDomain(c.points, c.depth);
    var r := SplitRoot(c.points, c.depth);
    RootInv(c, r, s0.0, s0.1, s1.0, s1.1);
    RootUsed(c, r, s0.0, s0.1);
    t0, t1 := Rooted(c.points, c.depth, r, false, s0.0, s0.1), Rooted(c.points, c.depth, r, true, s1.0, s1.1);
    act, own := RootAct(c.depth, r), RootOwners(|c.points|, r);
  }

  // ---------------------------------------------------------------- leaves

  function LeafSeed(t: Tree, e: Entry): Block
    requires e.parent < |t.sigma|
  {
    FixedSeed(e, t.sigma[e.parent])
  }

  predicate LeafTag(t: Tree, e: Entry)
    requires e.parent < |t.tau|
  {
    FixedTag(e, t.tau[e.parent])
  }

  function LeafSeeds(t: Tree, es: seq<Entry>): (r: seq<Block>)
    requires forall k :: 0 <= k < |es| ==> es[k].parent < |t.sigma|
    ensures |r| == |es|
  {
    seq(|es|, k requires 0 <= k < |es| => LeafSeed(t, es[k]))
  }

  /** Leaf entries that own distinct points. */
  ghost predicate LeafEntries(t: Tree, es: seq<Entry>, own: seq<(nat, nat)>) {
    |t.sigma| == |t.tau| && forall k {:trigger es[k]} :: 0 <= k < |es| ==> es[k].lo < |own| && own[es[k].lo] == (0, k) && es[k].parent < |t.sigma|
  }

  ghost predicate LeafAt(t: Tree, e: Entry, vals: seq<Block>, tags: seq<bool>) {
    && e.parent < |t.sigma| == |t.tau| && e.lo < |vals| == |tags|
    && vals[e.lo] == LeafSeed(t, e) && tags[e.lo] == LeafTag(t, e)
  }

  lemma LeafWrite(t: Tree, es: seq<Entry>, own: seq<(nat, nat)>, vals: seq<Block>, tags: seq<bool>, k: nat)
    requires LeafEntries(t, es, own) && k < |es| && |vals| == |tags| == |own| && forall i :: 0 <= i < k ==> LeafAt(t, es[i], vals, tags)
    ensures forall i :: 0 <= i <= k ==> LeafAt(t, es[i], vals[es[k].lo := LeafSeed(t, es[k])], tags[es[k].lo := LeafTag(t, es[k])])
  {
    forall i | 0 <= i <= k ensures LeafAt(t, es[i], vals[es[k].lo := LeafSeed(t, es[k])], tags[es[k].lo := LeafTag(t, es[k])]) {
      assert own[es[i].lo] == (0, i);
      if i < k {
        assert LeafAt(t, es[i], vals, tags);
      }
    }
  }

  /** The leaf loop: each leaf goes to its point's position, and into the sum. */
  method Leaves(t: Tree, n: nat, ghost own: seq<(nat, nat)>) returns (vals: seq<Block>, tags: seq<bool>, sum: Block)
    requires |t.levels| > 0 && |own| == n && LeafEntries(t, t.levels[0], own)
    ensures |vals| == |tags| == n && sum == XorAll(LeafSeeds(t, t.levels[0]))
    ensures forall k :: 0 <= k < |t.levels[0]| ==> LeafAt(t, t.levels[0][k], vals, tags)
  {
    var es := t.levels[0];
    ghost var all := LeafSeeds(t, es);
    vals, tags, sum := seq(n, i => ZERO), seq(n, i => false), ZERO;
    var k := 0;
    while k < |es|
      invariant 0 <= k <= |es| && |vals| == |tags| == n
      invariant forall i :: 0 <= i < k ==> LeafAt(t, es[i], vals, tags)
      invariant sum == XorAll(all[..k])
    {
      LeafWrite(t, es, own, vals, tags, k);
      XorAllPush(all[..k], all[k]);
      assert all[..k + 1] == all[..k] + [all[k]];
      var e := es[k];
      vals := vals[e.lo := LeafSeed(t, e)];
      tags := tags[e.lo := LeafTag(t, e)];
      sum := Xor(sum, LeafSeed(t, e));
      k := k + 1;
    }
    assert all[..k] == all;
  }

  /** What the invariant says about leaves once everything is expanded and corrected. */
  lemma LeafPair(c: Ctx, act: seq<bool>, t0: Tree, t1: Tree, own: seq<(nat, nat)>, k: nat)
    requires Inv(c, act, 1, t0, t1, own, 0, 0) && |t0.levels| > 0 && k < |t0.levels[0]|
    ensures k < |t1.levels[0]|
    ensures var e0, e1 := t0.levels[0][k], t1.levels[0][k];
            && e0.lo == e1.lo < |own| && own[e0.lo] == (0, k) && e0.parent == e1.parent < |t0.sigma| == |t1.sigma| == |t0.tau| == |t1.tau|
            && (if e0.lo == c.ia then LeafTag(t0, e0) != LeafTag(t1, e1)
                else LeafSeed(t0, e0) == LeafSeed(t1, e1) && LeafTag(t0, e0) == LeafTag(t1, e1))
  {
    assert Pending(t0, c.depth, 0, 0, 0, k);
    assert EntryOk(c, act, 1, t0, t1, own, 0, k);
  }

  lemma LeavesOk(c: Ctx, act: seq<bool>, t0: Tree, t1: Tree, own: seq<(nat, nat)>)
    requires Inv(c, act, 1, t0, t1, own, 0, 0)
    ensures |t0.levels| > 0 && |t1.levels| > 0 && |own| == |c.points| && |t0.levels[0]| == |t1.levels[0]|
    ensures LeafEntries(t0, t0.levels[0], own) && LeafEntries(t1, t1.levels[0], own)
    ensures forall x :: 0 <= x < |own| ==> OwnerOk(c, t0, own, 0, 0, x)
  {
    forall k | 0 <= k < |t0.levels[0]| ensures t0.levels[0][k].lo == t1.levels[0][k].lo < |own| && own[t0.levels[0][k].lo] == (0, k)
                                            && t0.levels[0][k].parent < |t0.sigma| && t1.levels[0][k].parent < |t1.sigma| {
      LeafPair(c, act, t0, t1, own, k);
    }
  }

  /** The leaf sums of both parties differ by the two leaves of the active point. */
  lemma SumsDiffer(c: Ctx, act: seq<bool>, t0: Tree, t1: Tree, own: seq<(nat, nat)>, a: nat)
    requires Inv(c, act, 1, t0, t1, own, 0, 0) && |t0.levels| > 0 && |t1.levels| > 0 && |t0.levels[0]| == |t1.levels[0]|
    requires LeafEntries(t0, t0.levels[0], own) && LeafEntries(t1, t1.levels[0], own)
    requires c.ia < |own| && own[c.ia] == (0, a) && a < |t0.levels[0]| && t0.levels[0][a].lo == c.ia
    ensures Xor(XorAll(LeafSeeds(t0, t0.levels[0])), XorAll(LeafSeeds(t1, t1.levels[0])))
         == Xor(LeafSeed(t0, t0.levels[0][a]), LeafSeed(t1, t1.levels[0][a]))
  {
    var s0, s1 := LeafSeeds(t0, t0.levels[0]), LeafSeeds(t1, t1.levels[0]);
    forall k | 0 <= k < |s0| && k != a ensures s0[k] == s1[k] {
      LeafPair(c, act, t0, t1, own, k);
    }
    SumOfTwins(s0, s1, a);
  }

  lemma ActiveLeaf(t: bool, a: Block, b: Block, v: Block)
    ensures Xor(Xor(a, Mask(t, Xor(v, Xor(a, b)))), Xor(b, Mask(!t, Xor(v, Xor(a, b))))) == v
  {
    BitLaws();
    Extensional(Xor(Xor(a, Mask(t, Xor(v, Xor(a, b)))), Xor(b, Mask(!t, Xor(v, Xor(a, b))))), v);
  }

  /** Both parties' outputs at position `x` share the value exactly if it is the active one. */
  ghost predicate SharedAt(out0: seq<Block>, tags0: seq<bool>, out1: seq<Block>, tags1: seq<bool>, x: nat, ia: nat, v: Block) {
    && x < |out0| == |tags0| == |out1| == |tags1|
    && (tags0[x] != tags1[x]) == (x == ia) && Xor(out0[x], out1[x]) == Mask(x == ia, v)
  }

  method Apply(vals: seq<Block>, tags: seq<bool>, gamma: Block) returns (out: seq<Block>)
    requires |vals| == |tags|
    ensures |out| == |vals| && forall i :: 0 <= i < |out| ==> out[i] == Xor(vals[i], Mask(tags[i], gamma))
  {
    out := [];
    while |out| < |vals|
      invariant |out| <= |vals| && forall i :: 0 <= i < |out| ==> out[i] == Xor(vals[i], Mask(tags[i], gamma))
    {
      var i := |out|;
      out := out + [Xor(vals[i], Mask(tags[i], gamma))];
    }
  }

  lemma SharedLeaf(c: Ctx, act: seq<bool>, t0: Tree, t1: Tree, own: seq<(nat, nat)>, x: nat, v: Block, gamma: Block,
                   vals0: seq<Block>, tags0: seq<bool>, vals1: seq<Block>, tags1: seq<bool>, out0: seq<Block>, out1: seq<Block>)
    requires Inv(c, act, 1, t0, t1, own, 0, 0) && x < |own| == |c.points|
    requires |vals0| == |tags0| == |vals1| == |tags1| == |out0| == |out1| == |own| && |t0.levels| > 0 && |t1.levels| > 0 && |t0.levels[0]| == |t1.levels[0]|
    requires forall k :: 0 <= k < |t0.levels[0]| ==> LeafAt(t0, t0.levels[0][k], vals0, tags0) && LeafAt(t1, t1.levels[0][k], vals1, tags1)
    requires gamma == Xor(v, Xor(vals0[c.ia], vals1[c.ia]))
    requires out0[x] == Xor(vals0[x], Mask(tags0[x], gamma)) && out1[x] == Xor(vals1[x], Mask(tags1[x], gamma))
    ensures SharedAt(out0, tags0, out1, tags1, x, c.ia, v)
  {
    assert OwnerOk(c, t0, own, 0, 0, x);
    var k := own[x].1;
    LeafPair(c, act, t0, t1, own, k);
    assert LeafAt(t0, t0.levels[0][k], vals0, tags0) && LeafAt(t1, t1.levels[0][k], vals1, tags1);
    LeafPosition(c, act, 1, t0, t1, own, x);
    if x == c.ia {
      ActiveLeaf(tags0[x], vals0[x], vals1[x], v);
    } else {
      XorSelf(out0[x]);
    }
  }

  /** The closing exchange and the output loop. */
  method Outputs(c: Ctx, t0: Tree, t1: Tree, v0: Block, v1: Block, ghost act: seq<bool>, ghost own: seq<(nat, nat)>)
    returns (out0: seq<Block>, tags0: seq<bool>, out1: seq<Block>, tags1: seq<bool>)
    requires Inv(c, act, 1, t0, t1, own, 0, 0)
    ensures forall x :: 0 <= x < |c.points| ==> SharedAt(out0, tags0, out1, tags1, x, c.ia, Xor(v0, v1))
  {
    LeavesOk(c, act, t0, t1, own);
    var vals0, sum0, vals1, sum1;
    vals0, tags0, sum0 := Leaves(t0, |c.points|, own);
    vals1, tags1, sum1 := Leaves(t1, |c.points|, own);
    var gamma0, gamma1 := Xor(v0, sum0), Xor(v1, sum1);
    var gamma := Xor(gamma0, gamma1);
    GammaOpened(c, act, t0, t1, own, v0, v1, sum0, sum1, vals0, tags0, vals1, tags1);
    out0 := Apply(vals0, tags0, gamma);
    out1 := Apply(vals1, tags1, gamma);
    forall x | 0 <= x < |c.points| ensures SharedAt(out0, tags0, out1, tags1, x, c.ia, Xor(v0, v1)) {
      SharedLeaf(c, act, t0, t1, own, x, Xor(v0, v1), gamma, vals0, tags0, vals1, tags1, out0, out1);
    }
  }

  lemma GammaOpened(c: Ctx, act: seq<bool>, t0: Tree, t1: Tree, own: seq<(nat, nat)>, v0: Block, v1: Block, sum0: Block, sum1: Block,
                    vals0: seq<Block>, tags0: seq<bool>, vals1: seq<Block>, tags1: seq<bool>)
    requires Inv(c, act, 1, t0, t1, own, 0, 0) && |vals0| == |vals1| == |own| && c.ia < |own|
    requires |t0.levels| > 0 && |t1.levels| > 0 && |t0.levels[0]| == |t1.levels[0]|
    requires LeafEntries(t0, t0.levels[0], own) && LeafEntries(t1, t1.levels[0], own)
    requires sum0 == XorAll(LeafSeeds(t0, t0.levels[0])) && sum1 == XorAll(LeafSeeds(t1, t1.levels[0]))
    requires forall k :: 0 <= k < |t0.levels[0]| ==> LeafAt(t0, t0.levels[0][k], vals0, tags0) && LeafAt(t1, t1.levels[0][k], vals1, tags1)
    ensures Xor(Xor(v0, sum0), Xor(v1, sum1)) == Xor(Xor(v0, v1), Xor(vals0[c.ia], vals1[c.ia]))
  {
    LeafPosition(c, act, 1, t0, t1, own, c.ia);
    var a := own[c.ia].1;
    SumsDiffer(c, act, t0, t1, own, a);
    LeafPair(c, act, t0, t1, own, a);
    assert LeafAt(t0, t0.levels[0][a], vals0, tags0) && LeafAt(t1, t1.levels[0][a], vals1, tags1);
    XorSwap(v0, sum0, v1, sum1);
  }
}
