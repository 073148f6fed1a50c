/** Two-party regular DPF: `RegularDpf::implExpand`, both `keyGen` and `expand`. */
module RegularDpf {
  import opened Blocks
  import opened Words
  import opened DpfTree
  import opened RegularTree
  import opened RegularRows
  import DpfMult
  import RegularRound

  /** Buffer sizes 2^depth, 2^depth / 2 and 2^depth / 4 suffice for the levels that use them. */
  lemma Capacity(depth: nat)
    requires depth > 0
    ensures forall d :: 0 <= d <= depth ==>
              Pow2(d) <= if (depth - d) % 3 == 0 then Pow2(depth) else if (depth - d) % 3 == 1 then Pow2(depth) / 2 else Pow2(depth) / 4
  {
    forall d | 0 <= d <= depth
      ensures Pow2(d) <= if (depth - d) % 3 == 0 then Pow2(depth) else if (depth - d) % 3 == 1 then Pow2(depth) / 2 else Pow2(depth) / 4
    {
      if (depth - d) % 3 == 0 {
        Pow2Monotone(d, depth);
      } else if (depth - d) % 3 == 1 {
        Pow2Monotone(d, depth - 1);
      } else {
        Pow2Monotone(d, depth - 2);
      }
    }
  }

  lemma RootHolds(party: bool, sc0: Row, sc1: Row, tag: Row, n: nat, seed: Block, prng: (Block, nat) -> Block)
    requires |sc0| == |sc1| == |tag| == n
    requires forall k :: 0 <= k < n ==> sc0[k] == prng(seed, 2 * k) && sc1[k] == prng(seed, 2 * k + 1) && tag[k] == Saturate(party)
    ensures Holds([tag], [sc0, sc1], n)
    ensures ForestOf([tag], [sc0, sc1], n) == Roots(party, n, seed, prng)
    ensures SumsFor(ForestOf([tag], [sc0, sc1], n), sc0, sc1)
  {
    BitLaws();
    forall k | 0 <= k < n
      ensures LevelOf([tag], [sc0, sc1], n, k) == Root(party, sc0[k], sc1[k])
      ensures SumsOf(LevelOf([tag], [sc0, sc1], n, k), sc0[k], sc1[k])
    {
      var l := LevelOf([tag], [sc0, sc1], n, k);
      assert l.kids == [[sc0[k], sc1[k]]] && l.tags == [party];
      assert Column(l, 0) == [sc0[k]] && Column(l, 1) == [sc1[k]];
      XorAllSingle([sc0[k]], 0);
      XorAllSingle([sc1[k]], 0);
    }
  }

  /** Three distinct buffers, each wide enough for every level it is used for. */
  ghost predicate Suffice(s: seq<array<Row>>, depth: nat) {
    && |s| == 3 && s[0] != s[1] && s[0] != s[2] && s[1] != s[2]
    && forall d :: 0 <= d <= depth ==> Pow2(d) <= s[d % 3].Length
  }

  method Buffers(depth: nat) returns (s: seq<array<Row>>)
    requires depth > 0
    ensures Suffice(s, depth) && fresh(s)
  {
    var full, half, quarter := new Row[Pow2(depth)], new Row[Pow2(depth) / 2], new Row[Pow2(depth) / 4];
    s := if depth % 3 == 0 then [full, quarter, half] else if depth % 3 == 1 then [half, full, quarter] else [quarter, half, full];
    Capacity(depth);
  }

  method FirstRows(party: bool, n: nat, seed: Block, prng: (Block, nat) -> Block) returns (sc0: Row, sc1: Row, tag: Row)
    ensures |sc0| == |sc1| == |tag| == n
    ensures forall k :: 0 <= k < n ==> sc0[k] == prng(seed, 2 * k) && sc1[k] == prng(seed, 2 * k + 1) && tag[k] == Saturate(party)
  {
    sc0, sc1, tag := [], [], [];
    var k := 0;
    while k < n
      invariant 0 <= k <= n && |sc0| == |sc1| == |tag| == k
      invariant forall q :: 0 <= q < k ==> sc0[q] == prng(seed, 2 * q) && sc1[q] == prng(seed, 2 * q + 1) && tag[q] == Saturate(party)
    {
      sc0 := sc0 + [prng(seed, 2 * k)];
      sc1 := sc1 + [prng(seed, 2 * k + 1)];
      tag := tag + [Saturate(party)];
      k := k + 1;
    }
  }

  ghost predicate Sized(f: seq<Level>, n: nat) {
    |f| == n && forall k :: 0 <= k < n ==> Shaped(2, f[k])
  }

  ghost function ForestOf(tags: seq<Row>, seeds: seq<Row>, n: nat): (f: seq<Level>)
    requires Holds(tags, seeds, n)
    ensures Sized(f, n)
  {
    seq(n, k requires 0 <= k < n => LevelOf(tags, seeds, n, k))
  }

  /** The sums of a level, tree by tree. */
  ghost predicate SumsFor(f: seq<Level>, z0: Row, z1: Row) {
    |z0| == |z1| == |f| && forall k :: 0 <= k < |f| ==> SumsOf(f[k], z0[k], z1[k])
  }

  lemma ForestAdvances(c: Cipher, tags: seq<Row>, seeds: seq<Row>, tags': seq<Row>, seeds': seq<Row>, corr: seq<Correction>, z0: Row, z1: Row)
    requires Holds(tags, seeds, |corr|) && Holds(tags', seeds', |corr|) && |z0| == |z1| == |corr|
    requires forall k :: 0 <= k < |corr| ==>
               && LevelOf(tags', seeds', |corr|, k) == Next(c, LevelOf(tags, seeds, |corr|, k), corr[k])
               && SumsOf(LevelOf(tags', seeds', |corr|, k), z0[k], z1[k])
    ensures ForestOf(tags', seeds', |corr|) == NextForest(c, ForestOf(tags, seeds, |corr|), corr)
    ensures SumsFor(ForestOf(tags', seeds', |corr|), z0, z1)
  {
  }

  /** A party's fixed leaves: their tags and masks, leaf by leaf, and the sum of the masks. */
  datatype LeafRows = LeafRows(tags: seq<Row>, masks: seq<Row>, diff: Row)

  predicate LeafShape(l: LeafRows, size: nat, n: nat) {
    |l.tags| == |l.masks| == size && |l.diff| == n && Wide(l.tags, n) && Wide(l.masks, n)
  }

  /** Tree `k` of the leaves belongs to these leaf seeds. */
  ghost predicate TreeLeaves(c: Cipher, seeds: seq<Block>, l: LeafRows, size: nat, k: nat) {
    LeavesFor(c, seeds, l.tags, l.masks, l.diff, size, k)
  }

  ghost predicate AllLeaves(c: Cipher, f: seq<Level>, corr: seq<Correction>, l: LeafRows, size: nat) {
    && Sized(f, |corr|)
    && forall k :: 0 <= k < |corr| ==> TreeLeaves(c, Corrected(2, f[k], Sigma(corr[k])), l, size, k)
  }

  ghost function Roots(party: bool, n: nat, seed: Block, prng: (Block, nat) -> Block): (f: seq<Level>)
    ensures |f| == n
  {
    seq(n, k requires 0 <= k < n => Root(party, prng(seed, 2 * k), prng(seed, 2 * k + 1)))
  }

  ghost function NextForest(c: Cipher, f: seq<Level>, corr: seq<Correction>): (r: seq<Level>)
    requires Sized(f, |corr|)
    ensures Sized(r, |corr|)
  {
    seq(|corr|, k requires 0 <= k < |corr| => Next(c, f[k], corr[k]))
  }

  /** Corrects and expands the level of all trees that `tp` and `sc` hold; `sc` and `sg` then hold the next one. */
  method ExpandForest(c: Cipher, tp: array<Row>, sc: array<Row>, sg: array<Row>, corr: seq<Correction>, parents: nat, ghost f: seq<Level>)
    returns (z0: Row, z1: Row)
    requires tp != sc && tp != sg && sc != sg
    requires parents <= tp.Length && 2 * parents <= sc.Length && 4 * parents <= sg.Length
    requires Holds(tp[..parents], sc[..2 * parents], |corr|) && f == ForestOf(tp[..parents], sc[..2 * parents], |corr|)
    modifies sc, sg
    ensures Holds(sc[..2 * parents], sg[..4 * parents], |corr|)
    ensures ForestOf(sc[..2 * parents], sg[..4 * parents], |corr|) == NextForest(c, f, corr)
    ensures SumsFor(NextForest(c, f, corr), z0, z1)
  {
    ghost var tags, seeds := tp[..parents], sc[..2 * parents];
    z0, z1 := ExpandTrees(c, tp, sc, sg, corr, parents);
    ForestAdvances(c, tags, seeds, sc[..2 * parents], sg[..4 * parents], corr, z0, z1);
  }

  /** One party's activation of `implExpand`: its three level buffers and level sums. The
      buffer of level `d` is `s[d % 3]`; it holds seeds until they are expanded, then tags. */
  class Party {
    const n: nat
    const depth: nat
    const s: seq<array<Row>>
    var z0: Row
    var z1: Row
    /** The level whose seeds were last written, and the trees in the buffers. */
    ghost var iter: nat
    ghost var forest: seq<Level>

    ghost function Tags(): seq<Row>
      requires 0 < iter <= depth && Suffice(s, depth)
      reads this, s
    {
      s[(iter - 1) % 3][..Pow2(iter - 1)]
    }

    ghost function Seeds(): seq<Row>
      requires 0 < iter <= depth && Suffice(s, depth)
      reads this, s
    {
      s[iter % 3][..Pow2(iter)]
    }

    /** The buffers hold the tags of level `iter - 1` and the seeds of level `iter` of all trees,
        and the sums are those of level `iter`. */
    ghost predicate Valid()
      reads this, s
    {
      && Suffice(s, depth) && 0 < iter <= depth && Holds(Tags(), Seeds(), n)
      && forest == ForestOf(Tags(), Seeds(), n) && SumsFor(forest, z0, z1)
    }

    /** Level 1 is drawn from the party's seed, two blocks per tree; the root's tag is the party index. */
    constructor (party: bool, n: nat, depth: nat, seed: Block, prng: (Block, nat) -> Block)
      requires depth > 0
      ensures this.n == n && this.depth == depth
      ensures fresh(s) && Valid() && iter == 1 && forest == Roots(party, n, seed, prng)
    {
      this.n, this.depth := n, depth;
      var buffers := Buffers(depth);
      s := buffers;
      var sc0, sc1, tag := FirstRows(party, n, seed, prng);
      z0, z1, iter := sc0, sc1, 1;
      forest := Roots(party, n, seed, prng);
      new;
      assert Pow2(0) <= s[0].Length && Pow2(1) <= s[1].Length;
      s[0][0] := tag;
      s[1][0], s[1][1] := sc0, sc1;
      RootHolds(party, sc0, sc1, tag, n, seed, prng);
      assert Tags() == [tag] && Seeds() == [sc0, sc1];
    }

    /** Corrects and expands level `d`. */
    method Expand(c: Cipher, d: nat, corr: seq<Correction>)
      requires Valid() && d == iter < depth && |corr| == n
      modifies this, s
      ensures Valid() && iter == old(iter) + 1 && forest == NextForest(c, old(forest), corr)
    {
      var tp, sc, sg := s[(d - 1) % 3], s[d % 3], s[(d + 1) % 3];
      assert Pow2(d + 1) <= sg.Length && Pow2(d) <= sc.Length && Pow2(d - 1) <= tp.Length;
      z0, z1 := ExpandForest(c, tp, sc, sg, corr, Pow2(d - 1), forest);
      iter, forest := iter + 1, NextForest(c, forest, corr);
      assert Tags() == sc[..Pow2(d)] && Seeds() == sg[..Pow2(d + 1)];
    }

    /** Fixes the last level: its first `size` seeds become leaf masks. */
    method Fix(c: Cipher, corr: seq<Correction>, size: nat) returns (leaves: LeafRows)
      requires Valid() && iter == depth && |corr| == n && size <= Pow2(depth)
      modifies s
      ensures LeafShape(leaves, size, n) && AllLeaves(c, forest, corr, leaves, size)
    {
      var tp, sc := s[(depth - 1) % 3], s[depth % 3];
      assert Pow2(depth) <= sc.Length && Pow2(depth - 1) <= tp.Length;
      var tags, diff := FixTrees(c, tp, sc, corr, size, Pow2(depth - 1));
      leaves := LeafRows(tags, sc[..size], diff);
    }
  }

  /** Both parties' runs of one tree, and the correction words used so far. */
  datatype TreeRun = TreeRun(run0: Run, run1: Run, cs: seq<Correction>)

  /** Round `iter` of this tree may start. */
  ghost predicate Before(c: Cipher, t: TreeRun, alpha: seq<bool>, iter: nat) {
    && iter > 0 && |t.run0| == |t.run1| == iter && |t.cs| == iter - 1
    && JointRun(c, t.run0, t.run1, alpha, t.cs)
  }

  /** Round `iter` has produced its correction word. */
  ghost predicate Corrected1(c: Cipher, t: TreeRun, alpha: seq<bool>, iter: nat) {
    && iter > 0 && |t.run0| == |t.run1| == |t.cs| == iter
    && JointRun(c, t.run0, t.run1, alpha, t.cs)
  }

  lemma PushCorrection(c: Cipher, t: TreeRun, alpha: seq<bool>, iter: nat, corr: Correction)
    requires Before(c, t, alpha, iter) && iter <= |alpha|
    requires Shaped(2, t.run0[iter - 1]) && Shaped(2, t.run1[iter - 1])
    requires corr == JointCorrection(t.run0[iter - 1], t.run1[iter - 1], alpha[iter - 1])
    ensures Corrected1(c, t.(cs := t.cs + [corr]), alpha, iter)
  {
    var cs := t.cs + [corr];
    forall d | 0 <= d < |cs| ensures CorrectionAt(t.run0, t.run1, alpha, cs, d) {
      if d < |t.cs| {
        assert CorrectionAt(t.run0, t.run1, alpha, t.cs, d);
      }
    }
    forall d | 0 <= d < iter - 1 ensures StepAt(c, t.run0, cs, d) && StepAt(c, t.run1, cs, d) {
      assert StepAt(c, t.run0, t.cs, d) && StepAt(c, t.run1, t.cs, d);
    }
  }

  lemma PushLevels(c: Cipher, t: TreeRun, alpha: seq<bool>, iter: nat, l0: Level, l1: Level)
    requires Corrected1(c, t, alpha, iter) && Shaped(2, t.run0[iter - 1]) && Shaped(2, t.run1[iter - 1])
    requires l0 == Next(c, t.run0[iter - 1], t.cs[iter - 1]) && l1 == Next(c, t.run1[iter - 1], t.cs[iter - 1])
    ensures Before(c, TreeRun(t.run0 + [l0], t.run1 + [l1], t.cs), alpha, iter + 1)
  {
    ExtendRun(c, t.run0, t.cs, l0);
    ExtendRun(c, t.run1, t.cs, l1);
    var run0, run1 := t.run0 + [l0], t.run1 + [l1];
    forall d | 0 <= d < |t.cs| ensures CorrectionAt(run0, run1, alpha, t.cs, d) {
      assert CorrectionAt(t.run0, t.run1, alpha, t.cs, d);
    }
  }

  /** The path bits used in round `iter`. */
  function RoundBits(points: seq<Word>, depth: nat, iter: nat): (a: seq<bool>)
    requires 0 < iter <= depth <= 64
    ensures |a| == |points|
  {
    seq(|points|, k requires 0 <= k < |points| => points[k][depth - iter])
  }

  ghost predicate Apart(p0: Party, p1: Party) {
    && p0 != p1 && |p0.s| == |p1.s| == 3 && p0.n == p1.n && p0.depth == p1.depth
    && forall i, j :: 0 <= i < 3 && 0 <= j < 3 ==> p0.s[i] != p1.s[j]
  }

  /** Both parties expand level `d` under the same correction words. */
  method ExpandBoth(c: Cipher, p0: Party, p1: Party, d: nat, corr: seq<Correction>)
    requires Apart(p0, p1) && p0.Valid() && p1.Valid() && d == p0.iter == p1.iter < p0.depth && |corr| == p0.n
    modifies p0, p1, p0.s, p1.s
    ensures p0.Valid() && p1.Valid() && p0.iter == p1.iter == d + 1
    ensures p0.forest == NextForest(c, old(p0.forest), corr)
    ensures p1.forest == NextForest(c, old(p1.forest), corr)
  {
    p0.Expand(c, d, corr);
    p1.Expand(c, d, corr);
  }

  /** The path of each tree: the bits of the XOR of the shared points. */
  ghost function Paths(points0: seq<Word>, points1: seq<Word>, depth: nat): (alpha: seq<seq<bool>>)
    requires |points0| == |points1| && depth <= 64
    ensures |alpha| == |points0| && forall k :: 0 <= k < |alpha| ==> |alpha[k]| == depth
  {
    seq(|points0|, k requires 0 <= k < |points0| => PathBits(XorWord(points0[k], points1[k]), depth))
  }

  /** Every tree may start round `iter`, and is at levels `f0`, `f1`. */
  ghost predicate AllBefore(c: Cipher, ts: seq<TreeRun>, alpha: seq<seq<bool>>, iter: nat, f0: seq<Level>, f1: seq<Level>) {
    && Sized(f0, |ts|) && Sized(f1, |ts|) && |alpha| == |ts|
    && forall k :: 0 <= k < |ts| ==>
         Before(c, ts[k], alpha[k], iter) && ts[k].run0[iter - 1] == f0[k] && ts[k].run1[iter - 1] == f1[k]
  }

  /** Every tree has its correction word of round `iter`, and is still at levels `f0`, `f1`. */
  ghost predicate AllCorrected(c: Cipher, ts: seq<TreeRun>, alpha: seq<seq<bool>>, iter: nat, f0: seq<Level>, f1: seq<Level>) {
    && Sized(f0, |ts|) && Sized(f1, |ts|) && |alpha| == |ts|
    && forall k :: 0 <= k < |ts| ==>
         Corrected1(c, ts[k], alpha[k], iter) && ts[k].run0[iter - 1] == f0[k] && ts[k].run1[iter - 1] == f1[k]
  }

  lemma PushCorrections(c: Cipher, ts: seq<TreeRun>, alpha: seq<seq<bool>>, iter: nat, f0: seq<Level>, f1: seq<Level>, corr: seq<Correction>)
    requires AllBefore(c, ts, alpha, iter, f0, f1) && JointCorrections(f0, f1, alpha, iter, corr)
    ensures AllCorrected(c, WithCorrections(ts, corr), alpha, iter, f0, f1)
  {
    forall k | 0 <= k < |ts| ensures Corrected1(c, WithCorrections(ts, corr)[k], alpha[k], iter) {
      PushCorrection(c, ts[k], alpha[k], iter, corr[k]);
    }
  }

  lemma PushForests(c: Cipher, ts: seq<TreeRun>, alpha: seq<seq<bool>>, iter: nat, f0: seq<Level>, f1: seq<Level>, corr: seq<Correction>)
    requires AllCorrected(c, ts, alpha, iter, f0, f1) && |corr| == |ts|
    requires forall k :: 0 <= k < |ts| ==> iter > 0 && ts[k].cs[iter - 1] == corr[k]
    ensures AllBefore(c, WithLevels(ts, NextForest(c, f0, corr), NextForest(c, f1, corr)), alpha, iter + 1,
                      NextForest(c, f0, corr), NextForest(c, f1, corr))
  {
    var g0, g1 := NextForest(c, f0, corr), NextForest(c, f1, corr);
    forall k | 0 <= k < |ts| ensures Before(c, WithLevels(ts, g0, g1)[k], alpha[k], iter + 1) {
      PushLevels(c, ts[k], alpha[k], iter, g0[k], g1[k]);
    }
  }

  ghost function WithLevels(ts: seq<TreeRun>, f0: seq<Level>, f1: seq<Level>): (r: seq<TreeRun>)
    requires |ts| == |f0| == |f1|
    ensures |r| == |ts| && forall k :: 0 <= k < |ts| ==> r[k] == TreeRun(ts[k].run0 + [f0[k]], ts[k].run1 + [f1[k]], ts[k].cs)
  {
    seq(|ts|, k requires 0 <= k < |ts| => TreeRun(ts[k].run0 + [f0[k]], ts[k].run1 + [f1[k]], ts[k].cs))
  }

  ghost predicate Recorded(ts: seq<TreeRun>, corrs: seq<seq<Correction>>) {
    && (forall k :: 0 <= k < |ts| ==> |ts[k].cs| == |corrs|)
    && (forall d :: 0 <= d < |corrs| ==> |corrs[d]| == |ts|)
    && (forall d, k :: 0 <= d < |corrs| && 0 <= k < |ts| ==> corrs[d][k] == ts[k].cs[d])
  }

  ghost function WithCorrections(ts: seq<TreeRun>, corr: seq<Correction>): (r: seq<TreeRun>)
    requires |ts| == |corr|
    ensures |r| == |ts| && forall k :: 0 <= k < |ts| ==> r[k] == ts[k].(cs := ts[k].cs + [corr[k]])
  {
    seq(|ts|, k requires 0 <= k < |ts| => ts[k].(cs := ts[k].cs + [corr[k]]))
  }

  /** One interactive round: both parties learn the correction words of level `d`. */
  method CorrectBoth(p0: Party, p1: Party, m0: DpfMult.Multiplier, m1: DpfMult.Multiplier, d: nat,
                     points0: seq<Word>, points1: seq<Word>)
    returns (ok: bool, corr: seq<Correction>)
    requires m0 != m1 && DpfMult.Correlated(m0, m1) && p0.depth <= 64 && |points0| == |points1| == |p0.forest| == |p1.forest|
    requires 0 < d <= p0.depth && SumsFor(p0.forest, p0.z0, p0.z1) && SumsFor(p1.forest, p1.z0, p1.z1)
    modifies m0`otIdx, m1`otIdx
    ensures ok == (old(m0.otIdx) + |points0| <= m0.totalMults && m0.totalMults > 0)
    ensures ok ==> DpfMult.Correlated(m0, m1) && m0.otIdx == old(m0.otIdx) + |points0| && |corr| == |points0|
    ensures ok ==> JointCorrections(p0.forest, p1.forest, Paths(points0, points1, p0.depth), d, corr)
  {
    var a0, a1 := RoundBits(points0, p0.depth, d), RoundBits(points1, p0.depth, d);
    var corr1;
    ok, corr, corr1 := RegularRound.Round(m0, m1, p0.z0, p0.z1, p1.z0, p1.z1, a0, a1);
    ghost var alpha := Paths(points0, points1, p0.depth);
    forall k | ok && 0 <= k < |corr| ensures JointCorrectionAt(p0.forest[k], p1.forest[k], alpha[k], d, corr[k]) {
      assert a0[k] != a1[k] <==> alpha[k][d - 1];
    }
  }

  ghost predicate JointCorrectionAt(l0: Level, l1: Level, alpha: seq<bool>, iter: nat, corr: Correction) {
    && Shaped(2, l0) && Shaped(2, l1) && 0 < iter <= |alpha|
    && corr == JointCorrection(l0, l1, alpha[iter - 1])
  }

  ghost predicate JointCorrections(f0: seq<Level>, f1: seq<Level>, alpha: seq<seq<bool>>, iter: nat, corr: seq<Correction>) {
    && |f0| == |f1| == |alpha| == |corr|
    && forall k :: 0 <= k < |corr| ==> JointCorrectionAt(f0[k], f1[k], alpha[k], iter, corr[k])
  }

  lemma RecordPush(ts: seq<TreeRun>, corrs: seq<seq<Correction>>, corr: seq<Correction>)
    requires Recorded(ts, corrs) && |corr| == |ts|
    ensures Recorded(WithCorrections(ts, corr), corrs + [corr])
  {
  }

  /** What the rounds keep: both parties are at level `d`, the OTs used so far are those of the
      earlier rounds, and every tree is ready for round `d`. */
  ghost predicate RoundsInv(c: Cipher, p0: Party, p1: Party, m0: DpfMult.Multiplier, m1: DpfMult.Multiplier, d: nat,
                            alpha: seq<seq<bool>>, ts: seq<TreeRun>, corrs: seq<seq<Correction>>, r0: seq<Level>, r1: seq<Level>)
    reads p0, p1, p0.s, p1.s, m0, m1
  {
    && p0.Valid() && p1.Valid() && 0 < d == p0.iter == p1.iter <= p0.depth && |ts| == p0.n
    && DpfMult.Correlated(m0, m1) && m0.otIdx == p0.n * (d - 1) && m0.totalMults == p0.n * p0.depth
    && |corrs| == d - 1 && Recorded(ts, corrs) && AllBefore(c, ts, alpha, d, p0.forest, p1.forest)
    && StartAt(ts, r0, r1)
  }

  /** What the rounds achieve: all OTs are used up, and every tree has all its correction words. */
  ghost predicate RoundsDone(c: Cipher, p0: Party, p1: Party, m0: DpfMult.Multiplier, m1: DpfMult.Multiplier,
                             alpha: seq<seq<bool>>, ts: seq<TreeRun>, corrs: seq<seq<Correction>>, r0: seq<Level>, r1: seq<Level>)
    reads p0, p1, p0.s, p1.s, m0, m1
  {
    && p0.Valid() && p1.Valid() && p0.iter == p1.iter == p0.depth && |ts| == p0.n
    && m0.otIdx == m1.otIdx == m0.totalMults && |corrs| == p0.depth && Recorded(ts, corrs)
    && AllCorrected(c, ts, alpha, p0.depth, p0.forest, p1.forest) && StartAt(ts, r0, r1)
  }

  /** One round but the last: correct, then expand. */
  method FullRound(c: Cipher, p0: Party, p1: Party, m0: DpfMult.Multiplier, m1: DpfMult.Multiplier, d: nat,
                   points0: seq<Word>, points1: seq<Word>, ghost ts: seq<TreeRun>, ghost corrs: seq<seq<Correction>>,
                   ghost r0: seq<Level>, ghost r1: seq<Level>)
    returns (corr: seq<Correction>, ghost ts': seq<TreeRun>)
    requires m0 != m1 && Apart(p0, p1) && p0.depth <= 64 && |points0| == |points1| == p0.n > 0
    requires RoundsInv(c, p0, p1, m0, m1, d, Paths(points0, points1, p0.depth), ts, corrs, r0, r1) && d < p0.depth
    modifies m0`otIdx, m1`otIdx, p0, p1, p0.s, p1.s
    ensures RoundsInv(c, p0, p1, m0, m1, d + 1, Paths(points0, points1, p0.depth), ts', corrs + [corr], r0, r1)
  {
    ghost var alpha, f0, f1 := Paths(points0, points1, p0.depth), p0.forest, p1.forest;
    BudgetStep(p0.n, d, p0.depth);
    var ok;
    ok, corr := CorrectBoth(p0, p1, m0, m1, d, points0, points1);
    PushCorrections(c, ts, alpha, d, f0, f1, corr);
    RecordPush(ts, corrs, corr);
    ts' := WithCorrections(ts, corr);
    PushForests(c, ts', alpha, d, f0, f1, corr);
    ExpandBoth(c, p0, p1, d, corr);
    ts' := WithLevels(ts', p0.forest, p1.forest);
  }

  /** The last round: correct only. */
  method LastRound(c: Cipher, p0: Party, p1: Party, m0: DpfMult.Multiplier, m1: DpfMult.Multiplier,
                   points0: seq<Word>, points1: seq<Word>, ghost ts: seq<TreeRun>, ghost corrs: seq<seq<Correction>>,
                   ghost r0: seq<Level>, ghost r1: seq<Level>)
    returns (corr: seq<Correction>, ghost ts': seq<TreeRun>)
    requires m0 != m1 && Apart(p0, p1) && p0.depth <= 64 && |points0| == |points1| == p0.n > 0
    requires RoundsInv(c, p0, p1, m0, m1, p0.depth, Paths(points0, points1, p0.depth), ts, corrs, r0, r1)
    modifies m0`otIdx, m1`otIdx
    ensures RoundsDone(c, p0, p1, m0, m1, Paths(points0, points1, p0.depth), ts', corrs + [corr], r0, r1)
  {
    BudgetStep(p0.n, p0.depth, p0.depth);
    var ok;
    ok, corr := CorrectBoth(p0, p1, m0, m1, p0.depth, points0, points1);
    PushCorrections(c, ts, Paths(points0, points1, p0.depth), p0.depth, p0.forest, p1.forest, corr);
    RecordPush(ts, corrs, corr);
    ts' := WithCorrections(ts, corr);
  }

  /** All interactive rounds. They never run out of OTs, use exactly the ones they were given,
      and leave every tree with the correction words of its joint run. */
  method Rounds(c: Cipher, p0: Party, p1: Party, m0: DpfMult.Multiplier, m1: DpfMult.Multiplier, points0: seq<Word>, points1: seq<Word>)
    returns (corrs: seq<seq<Correction>>, ghost ts: seq<TreeRun>)
    requires m0 != m1 && DpfMult.Correlated(m0, m1) && p0.depth <= 64 && |points0| == |points1| == p0.n > 0
    requires Apart(p0, p1) && p0.Valid() && p1.Valid() && p0.iter == p1.iter == 1
    requires forall k :: 0 <= k < p0.n ==> Opposed(p0.forest[k], p1.forest[k])
    requires m0.otIdx == 0 && m0.totalMults == p0.n * p0.depth
    modifies m0`otIdx, m1`otIdx, p0, p1, p0.s, p1.s
    ensures RoundsDone(c, p0, p1, m0, m1, Paths(points0, points1, p0.depth), ts, corrs, old(p0.forest), old(p1.forest))
  {
    ghost var alpha, r0, r1 := Paths(points0, points1, p0.depth), p0.forest, p1.forest;
    ts, corrs := Start(r0, r1), [];
    StartBefore(c, r0, r1, alpha);
    var d := 1;
    while d < p0.depth
      invariant d <= p0.depth && RoundsInv(c, p0, p1, m0, m1, d, alpha, ts, corrs, r0, r1)
    {
      var corr;
      corr, ts := FullRound(c, p0, p1, m0, m1, d, points0, points1, ts, corrs, r0, r1);
      corrs, d := corrs + [corr], d + 1;
    }
    var corr;
    corr, ts := LastRound(c, p0, p1, m0, m1, points0, points1, ts, corrs, r0, r1);
    corrs := corrs + [corr];
  }

  lemma BudgetStep(n: nat, d: nat, depth: nat)
    requires 0 < d <= depth
    ensures n * (d - 1) + n == n * d <= n * depth
  {
    MulMonotone(n, d, depth);
  }

  ghost function Start(f0: seq<Level>, f1: seq<Level>): (ts: seq<TreeRun>)
    requires |f0| == |f1|
    ensures |ts| == |f0| && forall k :: 0 <= k < |ts| ==> ts[k] == TreeRun([f0[k]], [f1[k]], [])
  {
    seq(|f0|, k requires 0 <= k < |f0| => TreeRun([f0[k]], [f1[k]], []))
  }

  ghost predicate StartAt(ts: seq<TreeRun>, f0: seq<Level>, f1: seq<Level>) {
    && |ts| == |f0| == |f1|
    && forall k :: 0 <= k < |ts| ==> |ts[k].run0| > 0 && |ts[k].run1| > 0 && ts[k].run0[0] == f0[k] && ts[k].run1[0] == f1[k]
  }

  lemma StartBefore(c: Cipher, f0: seq<Level>, f1: seq<Level>, alpha: seq<seq<bool>>)
    requires |f0| == |f1| == |alpha| && forall k :: 0 <= k < |f0| ==> Opposed(f0[k], f1[k])
    ensures AllBefore(c, Start(f0, f1), alpha, 1, f0, f1) && StartAt(Start(f0, f1), f0, f1)
  {
  }

  /** Opens the leaf corrections: each party sends the sum of its masks plus its value share. */
  method OpenGamma(diff0: Row, values0: Row, diff1: Row, values1: Row) returns (gamma0: Row, gamma1: Row)
    requires |diff0| == |values0| == |diff1| == |values1|
    ensures gamma0 == gamma1 && |gamma0| == |diff0|
    ensures forall k :: 0 <= k < |diff0| ==> gamma0[k] == Xor(Xor(diff0[k], diff1[k]), Xor(values0[k], values1[k]))
  {
    var sent0, sent1 := XorRow(diff0, values0), XorRow(diff1, values1);
    gamma0, gamma1 := XorRow(sent1, sent0), XorRow(sent0, sent1);
    forall k | 0 <= k < |diff0|
      ensures gamma0[k] == gamma1[k] == Xor(Xor(diff0[k], diff1[k]), Xor(values0[k], values1[k]))
    {
      XorComm(sent0[k], sent1[k]);
      XorSwap(diff0[k], values0[k], diff1[k], values1[k]);
    }
  }

  /** A tree whose rounds are complete. */
  ghost predicate Complete(c: Cipher, t: TreeRun, alpha: seq<bool>) {
    |alpha| > 0 && Corrected1(c, t, alpha, |alpha|)
  }

  /** The leaf correction of a complete tree. */
  ghost function Gamma(c: Cipher, t: TreeRun, alpha: seq<bool>, value: Block): Block
    requires Complete(c, t, alpha)
  {
    LeavesDifferAtPoint(c, t.run0, t.run1, alpha, t.cs);
    var p := PathIndex(alpha, |alpha|);
    LeafCorrection(c, LeafSeeds(t.run0, t.cs)[p], LeafSeeds(t.run1, t.cs)[p], value)
  }

  /** The leaf correction when masks are summed over the leaves below `size`: without the point among
      them the sums cancel, and the bare value is left. */
  ghost function GammaBelow(c: Cipher, t: TreeRun, alpha: seq<bool>, size: nat, value: Block): Block
    requires Complete(c, t, alpha)
  {
    if PathIndex(alpha, |alpha|) < size then Gamma(c, t, alpha, value) else value
  }

  lemma GammaOpened(c: Cipher, t: TreeRun, alpha: seq<bool>, size: nat, k: nat, l0: LeafRows, l1: LeafRows, v0: Block, v1: Block)
    requires Complete(c, t, alpha)
    requires TreeLeaves(c, LeafSeeds(t.run0, t.cs), l0, size, k) && TreeLeaves(c, LeafSeeds(t.run1, t.cs), l1, size, k)
    ensures Xor(Xor(l0.diff[k], l1.diff[k]), Xor(v0, v1)) == GammaBelow(c, t, alpha, size, Xor(v0, v1))
  {
    var s0, s1, p := LeafSeeds(t.run0, t.cs), LeafSeeds(t.run1, t.cs), PathIndex(alpha, |alpha|);
    LeavesDifferAtPoint(c, t.run0, t.run1, alpha, t.cs);
    if p < size {
      MaskSumCollapses(c, s0, s1, p, size);
    } else {
      MaskSumCancels(c, s0, s1, p, size);
      BitLaws();
      Extensional(Xor(ZERO, Xor(v0, v1)), Xor(v0, v1));
    }
  }
}
