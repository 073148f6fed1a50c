// Dealer key generation for the regular DPF (`RegularDpf::keyGen` with plaintext
// points). It follows the one path to the point and never looks at other nodes,
// yet produces the correction words of the whole-level sums.
module RegularDealer {
  import opened Blocks
  import opened Words
  import opened DpfTree
  import opened RegularTree
  import opened RegularRows
  import opened RegularDpf
  import opened RegularKeys

  function Idx(a: bool): nat {
    if a then 1 else 0
  }

  /** What the dealer tracks for a party: the two seeds below the path node and its saturated tag. */
  ghost predicate OnPath(l: Level, path: nat, seeds: seq<Block>, tag: Block) {
    && Shaped(2, l) && path < |l.tags|
    && seeds == l.kids[path] && tag == Saturate(l.tags[path])
  }

  /** The correction the dealer computes from the path seeds. */
  function PathCorrection(seeds0: seq<Block>, seeds1: seq<Block>, a: bool): Correction
    requires |seeds0| == |seeds1| == 2
  {
    var tau0 := Lsb(Xor(seeds0[0], seeds1[0])) != !a;
    var tau1 := Lsb(Xor(seeds0[1], seeds1[1])) != a;
    Correction(WithLsb(Xor(seeds0[Idx(!a)], seeds1[Idx(!a)]), tau0), tau1)
  }

  function FixSeeds(seeds: seq<Block>, corr: Correction, tag: Block): (r: seq<Block>)
    requires |seeds| == 2
    ensures |r| == 2
  {
    [Xor(seeds[0], And(corr.word, tag)), Xor(seeds[1], And(WithLsb(corr.word, corr.bit), tag))]
  }

  /** The path seeds give the correction of the whole level. */
  lemma PathCorrectionIsJoint(l0: Level, l1: Level, path: nat, seeds0: seq<Block>, seeds1: seq<Block>, a: bool)
    requires OnePath(2, l0, l1, path) && seeds0 == l0.kids[path] && seeds1 == l1.kids[path]
    ensures PathCorrection(seeds0, seeds1, a) == JointCorrection(l0, l1, a)
  {
    SumCollapses(2, l0, l1, path, 0);
    SumCollapses(2, l0, l1, path, 1);
  }

  lemma FixSeedsAreCorrected(l: Level, path: nat, seeds: seq<Block>, tag: Block, corr: Correction, j: nat)
    requires OnPath(l, path, seeds, tag) && j < 2
    ensures FixSeeds(seeds, corr, tag)[j] == Corrected(2, l, Sigma(corr))[2 * path + j]
  {
    MaskIsAnd(l.tags[path], Sigma(corr)[j]);
    IndexJoin(2, |l.tags|, path, j);
  }

  /** After correction the inactive children agree and the tags of the active ones differ: none
      of the dealer's consistency checks fails. */
  lemma ChecksPass(l0: Level, l1: Level, path: nat, seeds0: seq<Block>, seeds1: seq<Block>, tag0: Block, tag1: Block, a: bool, corr: Correction)
    requires OnePath(2, l0, l1, path) && OnPath(l0, path, seeds0, tag0) && OnPath(l1, path, seeds1, tag1)
    requires corr == JointCorrection(l0, l1, a)
    ensures var s0, s1 := FixSeeds(seeds0, corr, tag0), FixSeeds(seeds1, corr, tag1);
            s0[Idx(!a)] == s1[Idx(!a)] && Lsb(s0[Idx(a)]) != Lsb(s1[Idx(a)])
  {
    LeafStep(l0, l1, path, a, Sigma(corr));
    FixSeedsAreCorrected(l0, path, seeds0, tag0, corr, 0);
    FixSeedsAreCorrected(l0, path, seeds0, tag0, corr, 1);
    FixSeedsAreCorrected(l1, path, seeds1, tag1, corr, 0);
    FixSeedsAreCorrected(l1, path, seeds1, tag1, corr, 1);
  }

  /** Expanding the active child moves the dealer to the next level. */
  lemma OnPathNext(c: Cipher, l: Level, path: nat, seeds: seq<Block>, tag: Block, corr: Correction, a: bool)
    requires OnPath(l, path, seeds, tag)
    ensures var s := FixSeeds(seeds, corr, tag)[Idx(a)];
            OnPath(Next(c, l, corr), 2 * path + Idx(a), [Child(c, s, 0), Child(c, s, 1)], Saturate(Lsb(s)))
  {
    FixSeedsAreCorrected(l, path, seeds, tag, corr, Idx(a));
    IndexJoin(2, |l.tags|, path, Idx(a));
    var s := FixSeeds(seeds, corr, tag)[Idx(a)];
    assert Kids(2, ChildPrg(c), s) == [Child(c, s, 0), Child(c, s, 1)];
  }

  /** One level of the dealer's loop up to its checks. */
  method CorrectPath(seeds0: seq<Block>, seeds1: seq<Block>, tag0: Block, tag1: Block, a: bool,
                     ghost l0: Level, ghost l1: Level, ghost path: nat)
    returns (ok: bool, corr: Correction, s0: seq<Block>, s1: seq<Block>)
    requires OnePath(2, l0, l1, path) && OnPath(l0, path, seeds0, tag0) && OnPath(l1, path, seeds1, tag1)
    ensures ok && corr == JointCorrection(l0, l1, a)
    ensures s0 == FixSeeds(seeds0, corr, tag0) && s1 == FixSeeds(seeds1, corr, tag1) && s0[Idx(!a)] == s1[Idx(!a)]
  {
    var diff := Xor(seeds0[Idx(!a)], seeds1[Idx(!a)]);
    var tau0, tau1 := Lsb(Xor(seeds0[0], seeds1[0])) != !a, Lsb(Xor(seeds0[1], seeds1[1])) != a;
    diff := WithLsb(diff, tau0);
    var sigma0, sigma1 := diff, WithLsb(diff, tau1);
    corr := Correction(diff, tau1);
    PathCorrectionIsJoint(l0, l1, path, seeds0, seeds1, a);
    ChecksPass(l0, l1, path, seeds0, seeds1, tag0, tag1, a, corr);
    s0 := [Xor(seeds0[0], And(sigma0, tag0)), Xor(seeds0[1], And(sigma1, tag0))];
    s1 := [Xor(seeds1[0], And(sigma0, tag1)), Xor(seeds1[1], And(sigma1, tag1))];
    XorLsb(s0[Idx(a)], s1[Idx(a)]);
    ok := s0[Idx(!a)] == s1[Idx(!a)] && Lsb(Xor(s0[Idx(a)], s1[Idx(a)]));
  }

  /** The dealer has followed the path for `iter - 1` levels. */
  ghost predicate Following(c: Cipher, t: TreeRun, alpha: seq<bool>, iter: nat, seeds0: seq<Block>, tag0: Block,
                            seeds1: seq<Block>, tag1: Block) {
    && Before(c, t, alpha, iter) && iter <= |alpha|
    && AtPath(t.run0, alpha, iter, seeds0, tag0) && AtPath(t.run1, alpha, iter, seeds1, tag1)
  }

  ghost predicate AtPath(run: Run, alpha: seq<bool>, iter: nat, seeds: seq<Block>, tag: Block) {
    0 < iter <= |run| && iter <= |alpha| + 1 && OnPath(run[iter - 1], PathIndex(alpha, iter - 1), seeds, tag)
  }

  lemma AtPathNext(c: Cipher, run: Run, alpha: seq<bool>, iter: nat, seeds: seq<Block>, tag: Block, corr: Correction, s: Block, l: Level)
    requires iter == |run| <= |alpha| && AtPath(run, alpha, iter, seeds, tag)
    requires s == FixSeeds(seeds, corr, tag)[Idx(alpha[iter - 1])] && l == Next(c, run[iter - 1], corr)
    ensures AtPath(run + [l], alpha, iter + 1, KidsOf(c, s), Saturate(Lsb(s)))
  {
    OnPathNext(c, run[iter - 1], PathIndex(alpha, iter - 1), seeds, tag, corr, alpha[iter - 1]);
  }

  function KidsOf(c: Cipher, s: Block): (r: seq<Block>)
    ensures |r| == 2
  {
    [Child(c, s, 0), Child(c, s, 1)]
  }

  /** Both runs extended by one corrected and expanded level. */
  ghost function Advance(c: Cipher, t: TreeRun, corr: Correction): TreeRun
    requires |t.run0| == |t.run1| > 0 && Shaped(2, t.run0[|t.run0| - 1]) && Shaped(2, t.run1[|t.run1| - 1])
  {
    TreeRun(t.run0 + [Next(c, t.run0[|t.run0| - 1], corr)], t.run1 + [Next(c, t.run1[|t.run1| - 1], corr)], t.cs + [corr])
  }

  lemma BeforeNext(c: Cipher, t: TreeRun, alpha: seq<bool>, iter: nat, corr: Correction)
    requires Before(c, t, alpha, iter) && iter <= |alpha| && Shaped(2, t.run0[iter - 1]) && Shaped(2, t.run1[iter - 1])
    requires corr == JointCorrection(t.run0[iter - 1], t.run1[iter - 1], alpha[iter - 1])
    ensures Before(c, Advance(c, t, corr), alpha, iter + 1)
  {
    PushCorrection(c, t, alpha, iter, corr);
    PushLevels(c, t.(cs := t.cs + [corr]), alpha, iter, Next(c, t.run0[iter - 1], corr), Next(c, t.run1[iter - 1], corr));
  }

  lemma FollowingNext(c: Cipher, t: TreeRun, alpha: seq<bool>, iter: nat, seeds0: seq<Block>, tag0: Block,
                      seeds1: seq<Block>, tag1: Block, corr: Correction, s0: Block, s1: Block)
    requires Following(c, t, alpha, iter, seeds0, tag0, seeds1, tag1) && iter < |alpha|
    requires corr == JointCorrection(t.run0[iter - 1], t.run1[iter - 1], alpha[iter - 1])
    requires s0 == FixSeeds(seeds0, corr, tag0)[Idx(alpha[iter - 1])] && s1 == FixSeeds(seeds1, corr, tag1)[Idx(alpha[iter - 1])]
    ensures Following(c, Advance(c, t, corr), alpha, iter + 1, KidsOf(c, s0), Saturate(Lsb(s0)), KidsOf(c, s1), Saturate(Lsb(s1)))
  {
    BeforeNext(c, t, alpha, iter, corr);
    AtPathNext(c, t.run0, alpha, iter, seeds0, tag0, corr, s0, Next(c, t.run0[iter - 1], corr));
    AtPathNext(c, t.run1, alpha, iter, seeds1, tag1, corr, s1, Next(c, t.run1[iter - 1], corr));
  }

  /** The dealer's correction words and leaf correction of one tree are those of a joint run. */
  method DealerTree(c: Cipher, point: Word, depth: nat, value: Block, first0: seq<Block>, first1: seq<Block>)
    returns (ok: bool, cs: seq<Correction>, gamma: Block, ghost t: TreeRun)
    requires 0 < depth <= 64 && |first0| == |first1| == 2
    ensures ok && cs == t.cs && |cs| == depth && Complete(c, t, PathBits(point, depth))
    ensures gamma == Gamma(c, t, PathBits(point, depth), value)
    ensures t.run0[0] == Root(false, first0[0], first0[1]) && t.run1[0] == Root(true, first1[0], first1[1])
  {
    ghost var alpha := PathBits(point, depth);
    var seeds0, seeds1, tag0, tag1 := first0, first1, Saturate(false), Saturate(true);
    t := TreeRun([Root(false, first0[0], first0[1])], [Root(true, first1[0], first1[1])], []);
    ok, cs := true, [];
    var iter := 1;
    while iter < depth
      invariant 0 < iter <= depth && ok && cs == t.cs
      invariant Following(c, t, alpha, iter, seeds0, tag0, seeds1, tag1)
      invariant t.run0[0] == Root(false, first0[0], first0[1]) && t.run1[0] == Root(true, first1[0], first1[1])
    {
      JointOnePath(c, t.run0, t.run1, alpha, t.cs, iter - 1);
      ghost var l0, l1 := t.run0[iter - 1], t.run1[iter - 1];
      var a := point[depth - iter];
      var good, corr, s0, s1 := CorrectPath(seeds0, seeds1, tag0, tag1, a, l0, l1, PathIndex(alpha, iter - 1));
      FollowingNext(c, t, alpha, iter, seeds0, tag0, seeds1, tag1, corr, s0[Idx(a)], s1[Idx(a)]);
      ok, cs, t := ok && good, cs + [corr], Advance(c, t, corr);
      tag0, tag1 := Saturate(Lsb(s0[Idx(a)])), Saturate(Lsb(s1[Idx(a)]));
      seeds0, seeds1 := KidsOf(c, s0[Idx(a)]), KidsOf(c, s1[Idx(a)]);
      iter := iter + 1;
    }
    var good, corr;
    good, corr, gamma, t := DealerLeaf(c, point, depth, value, seeds0, tag0, seeds1, tag1, t);
    ok, cs := ok && good, cs + [corr];
  }

  lemma GammaOfPath(c: Cipher, t: TreeRun, alpha: seq<bool>, corr: Correction, path: nat, a: bool, s0: Block, s1: Block, value: Block)
    requires Complete(c, t, alpha) && corr == t.cs[|alpha| - 1] && a == alpha[|alpha| - 1] && path == PathIndex(alpha, |alpha| - 1)
    requires path < |t.run0[|alpha| - 1].tags| && path < |t.run1[|alpha| - 1].tags|
    requires s0 == Corrected(2, t.run0[|alpha| - 1], Sigma(corr))[2 * path + Idx(a)]
    requires s1 == Corrected(2, t.run1[|alpha| - 1], Sigma(corr))[2 * path + Idx(a)]
    ensures LeafCorrection(c, s0, s1, value) == Gamma(c, t, alpha, value)
  {
    LeavesDifferAtPoint(c, t.run0, t.run1, alpha, t.cs);
    assert PathIndex(alpha, |alpha|) == 2 * path + Idx(a);
  }

  lemma GammaFollowed(c: Cipher, t: TreeRun, alpha: seq<bool>, depth: nat, seeds0: seq<Block>, tag0: Block, seeds1: seq<Block>, tag1: Block,
                      corr: Correction, value: Block)
    requires 0 < depth == |alpha| && Following(c, t, alpha, depth, seeds0, tag0, seeds1, tag1)
    requires Complete(c, t.(cs := t.cs + [corr]), alpha)
    ensures var i := Idx(alpha[depth - 1]);
            LeafCorrection(c, FixSeeds(seeds0, corr, tag0)[i], FixSeeds(seeds1, corr, tag1)[i], value) == Gamma(c, t.(cs := t.cs + [corr]), alpha, value)
  {
    var l0, l1, path, i := t.run0[depth - 1], t.run1[depth - 1], PathIndex(alpha, depth - 1), Idx(alpha[depth - 1]);
    FixSeedsAreCorrected(l0, path, seeds0, tag0, corr, i);
    FixSeedsAreCorrected(l1, path, seeds1, tag1, corr, i);
    GammaOfPath(c, t.(cs := t.cs + [corr]), alpha, corr, path, alpha[depth - 1], FixSeeds(seeds0, corr, tag0)[i], FixSeeds(seeds1, corr, tag1)[i], value);
  }

  /** The dealer's last level and leaf correction. */
  method DealerLeaf(c: Cipher, point: Word, depth: nat, value: Block, seeds0: seq<Block>, tag0: Block, seeds1: seq<Block>, tag1: Block,
                    ghost t: TreeRun)
    returns (ok: bool, corr: Correction, gamma: Block, ghost t': TreeRun)
    requires 0 < depth <= 64 && Following(c, t, PathBits(point, depth), depth, seeds0, tag0, seeds1, tag1)
    ensures ok && t' == t.(cs := t.cs + [corr]) && Complete(c, t', PathBits(point, depth))
    ensures gamma == Gamma(c, t', PathBits(point, depth), value)
  {
    ghost var alpha, path := PathBits(point, depth), PathIndex(PathBits(point, depth), depth - 1);
    JointOnePath(c, t.run0, t.run1, alpha, t.cs, depth - 1);
    ghost var l0, l1 := t.run0[depth - 1], t.run1[depth - 1];
    var a := point[0];
    var s0, s1;
    ok, corr, s0, s1 := CorrectPath(seeds0, seeds1, tag0, tag1, a, l0, l1, path);
    PushCorrection(c, t, alpha, depth, corr);
    t' := t.(cs := t.cs + [corr]);
    GammaFollowed(c, t, alpha, depth, seeds0, tag0, seeds1, tag1, corr, value);
    ok := ok && s0[Idx(!a)] == s1[Idx(!a)];
    var leaf0, leaf1 := c.roundEnc(s0[Idx(a)], s0[Idx(a)]), c.roundEnc(s1[Idx(a)], s1[Idx(a)]);
    gamma := Xor(Xor(leaf0, leaf1), value);
  }

  ghost function PlainPaths(points: seq<Word>, depth: nat): (alpha: seq<seq<bool>>)
    requires depth <= 64
    ensures |alpha| == |points| && forall k :: 0 <= k < |alpha| ==> |alpha[k]| == depth
  {
    seq(|points|, k requires 0 <= k < |points| => PathBits(points[k], depth))
  }

  /** Level-major correction words from tree-major ones. */
  function Transpose(cols: seq<seq<Correction>>, depth: nat): (rows: seq<seq<Correction>>)
    requires forall k :: 0 <= k < |cols| ==> |cols[k]| == depth
    ensures |rows| == depth && forall d :: 0 <= d < depth ==> |rows[d]| == |cols|
    ensures forall d, k :: 0 <= d < depth && 0 <= k < |cols| ==> rows[d][k] == cols[k][d]
  {
    seq(depth, d requires 0 <= d < depth => seq(|cols|, k requires 0 <= k < |cols| => cols[k][d]))
  }

  /** Tree `k` of a dealer's pair of keys. */
  ghost predicate DealtTree(c: Cipher, prng: Prng, alpha: seq<bool>, value: Block, seed0: Block, seed1: Block, k: nat,
                            t: TreeRun, cs: seq<Correction>, gamma: Block) {
    && Complete(c, t, alpha) && cs == t.cs && gamma == Gamma(c, t, alpha, value)
    && t.run0[0] == Root(false, prng(seed0, 2 * k), prng(seed0, 2 * k + 1))
    && t.run1[0] == Root(true, prng(seed1, 2 * k), prng(seed1, 2 * k + 1))
  }

  /** The dealer's loop over the trees. */
  method DealTrees(c: Cipher, prng: Prng, depth: nat, points: seq<Word>, values: seq<Block>, seed0: Block, seed1: Block)
    returns (ok: bool, cols: seq<seq<Correction>>, gammas: seq<Block>, ghost ts: seq<TreeRun>)
    requires 0 < depth <= 64 && |values| <= |points|
    ensures ok && |ts| == |cols| == |gammas| == |values|
    ensures forall q :: 0 <= q < |values| ==> |cols[q]| == depth
    ensures forall q :: 0 <= q < |values| ==>
              DealtTree(c, prng, PathBits(points[q], depth), values[q], seed0, seed1, q, ts[q], cols[q], gammas[q])
  {
    ok, cols, gammas, ts := true, [], [], [];
    var k := 0;
    while k < |values|
      invariant 0 <= k <= |values| && ok && |ts| == |cols| == |gammas| == k
      invariant forall q :: 0 <= q < k ==> |cols[q]| == depth
      invariant forall q :: 0 <= q < k ==>
                  DealtTree(c, prng, PathBits(points[q], depth), values[q], seed0, seed1, q, ts[q], cols[q], gammas[q])
    {
      var first0, first1 := [prng(seed0, 2 * k), prng(seed0, 2 * k + 1)], [prng(seed1, 2 * k), prng(seed1, 2 * k + 1)];
      ghost var t;
      var good, cs, gamma;
      good, cs, gamma, t := DealerTree(c, points[k], depth, values[k], first0, first1);
      assert DealtTree(c, prng, PathBits(points[k], depth), values[k], seed0, seed1, k, t, cs, gamma);
      ok, cols, gammas, ts := ok && good, cols + [cs], gammas + [gamma], ts + [t];
      k := k + 1;
    }
  }

  /** Dealer key generation. Its consistency checks never fail. It deals one tree per value, so
      without values it deals none. */
  method DealerKeyGen(c: Cipher, prng: Prng, domain: nat, points: seq<Word>, values: seq<Block>, seed0: Block, seed1: Block)
    returns (r: KeyGenResult, ghost ts: seq<TreeRun>)
    ensures r.Keys? <==> 2 <= domain <= Pow2(64) && (|values| == |points| || |values| == 0)
    ensures r.Keys? ==> r.key0.seed == seed0 && r.key1.seed == seed1 && |r.key0.corrs| == Depth(domain)
    ensures r.Keys? ==> KeysOf(c, prng, PlainPaths(points[..|values|], Depth(domain)), values, Pow2(Depth(domain)), r.key0, r.key1, ts)
  {
    ts := [];
    if (|values| != |points| && |values| != 0) || domain < 2 || domain > Pow2(64) {
      return Rejected, ts;
    }
    var depth := Depth(domain);
    var ok, cols, gammas;
    ok, cols, gammas, ts := DealTrees(c, prng, depth, points, values, seed0, seed1);
    var corrs := Transpose(cols, depth);
    r := if ok then Keys(Key(seed0, corrs, gammas), Key(seed1, corrs, gammas)) else Rejected;
    DealtKeys(c, prng, PlainPaths(points[..|values|], depth), values, seed0, seed1, ts, cols, gammas, depth);
  }

  ghost predicate AllDealt(c: Cipher, prng: Prng, alpha: seq<seq<bool>>, values: seq<Block>, seed0: Block, seed1: Block, ts: seq<TreeRun>,
                           cols: seq<seq<Correction>>, gammas: seq<Block>) {
    && |alpha| == |values| == |ts| == |cols| == |gammas|
    && forall q :: 0 <= q < |ts| ==> DealtTree(c, prng, alpha[q], values[q], seed0, seed1, q, ts[q], cols[q], gammas[q])
  }

  lemma DealtRecord(c: Cipher, prng: Prng, alpha: seq<seq<bool>>, values: seq<Block>, seed0: Block, seed1: Block, ts: seq<TreeRun>,
                    cols: seq<seq<Correction>>, gammas: seq<Block>, depth: nat)
    requires AllDealt(c, prng, alpha, values, seed0, seed1, ts, cols, gammas)
    requires forall q :: 0 <= q < |cols| ==> |cols[q]| == depth
    ensures Recorded(ts, Transpose(cols, depth))
  {
    var corrs := Transpose(cols, depth);
    forall k | 0 <= k < |ts| ensures ts[k].cs == cols[k] {
      assert DealtTree(c, prng, alpha[k], values[k], seed0, seed1, k, ts[k], cols[k], gammas[k]);
    }
    forall d, k | 0 <= d < depth && 0 <= k < |ts| ensures corrs[d][k] == ts[k].cs[d] {
      assert corrs[d][k] == cols[k][d];
    }
  }

  lemma DealtStart(c: Cipher, prng: Prng, alpha: seq<seq<bool>>, values: seq<Block>, seed0: Block, seed1: Block, ts: seq<TreeRun>,
                   cols: seq<seq<Correction>>, gammas: seq<Block>)
    requires AllDealt(c, prng, alpha, values, seed0, seed1, ts, cols, gammas)
    ensures StartAt(ts, Roots(false, |ts|, seed0, prng), Roots(true, |ts|, seed1, prng))
  {
    var r0, r1 := Roots(false, |ts|, seed0, prng), Roots(true, |ts|, seed1, prng);
    forall k | 0 <= k < |ts|
      ensures |ts[k].run0| > 0 && |ts[k].run1| > 0 && ts[k].run0[0] == r0[k] && ts[k].run1[0] == r1[k]
    {
      assert DealtTree(c, prng, alpha[k], values[k], seed0, seed1, k, ts[k], cols[k], gammas[k]);
    }
  }

  lemma DealtKeys(c: Cipher, prng: Prng, alpha: seq<seq<bool>>, values: seq<Block>, seed0: Block, seed1: Block, ts: seq<TreeRun>,
                  cols: seq<seq<Correction>>, gammas: seq<Block>, depth: nat)
    requires AllDealt(c, prng, alpha, values, seed0, seed1, ts, cols, gammas)
    requires forall q :: 0 <= q < |cols| ==> |cols[q]| == depth == |alpha[q]|
    ensures var corrs := Transpose(cols, depth);
            KeysOf(c, prng, alpha, values, Pow2(depth), Key(seed0, corrs, gammas), Key(seed1, corrs, gammas), ts)
  {
    DealtRecord(c, prng, alpha, values, seed0, seed1, ts, cols, gammas, depth);
    DealtStart(c, prng, alpha, values, seed0, seed1, ts, cols, gammas);
    forall k | 0 <= k < |ts|
      ensures Complete(c, ts[k], alpha[k]) && gammas[k] == GammaBelow(c, ts[k], alpha[k], Pow2(depth), values[k])
    {
      assert DealtTree(c, prng, alpha[k], values[k], seed0, seed1, k, ts[k], cols[k], gammas[k]);
    }
  }

  /** Complete runs of the same tree from the same roots are the same. */
  lemma CompleteUnique(c: Cipher, t: TreeRun, t': TreeRun, alpha: seq<bool>)
    requires Complete(c, t, alpha) && Complete(c, t', alpha) && t.run0[0] == t'.run0[0] && t.run1[0] == t'.run1[0]
    ensures t == t'
  {
    forall d | 0 <= d < |alpha| ensures t.run0[d] == t'.run0[d] && t.run1[d] == t'.run1[d] && t.cs[d] == t'.cs[d] {
      JointRunsUnique(c, t.run0, t.run1, alpha, t.cs, t'.run0, t'.run1, t'.cs, d);
    }
    assert t.run0 == t'.run0 && t.run1 == t'.run1 && t.cs == t'.cs;
  }

  /** The leaf masks of both parties coincide at the point of a complete tree. */
  ghost predicate MasksMeet(c: Cipher, t: TreeRun, alpha: seq<bool>)
    requires Complete(c, t, alpha)
  {
    LeavesDifferAtPoint(c, t.run0, t.run1, alpha, t.cs);
    var p := PathIndex(alpha, |alpha|);
    LeafMask(c, LeafSeeds(t.run0, t.cs)[p]) == LeafMask(c, LeafSeeds(t.run1, t.cs)[p])
  }

  /** The leaf correction is the bare value exactly if the masks at the point coincide. */
  lemma BareGamma(c: Cipher, t: TreeRun, alpha: seq<bool>, value: Block)
    requires Complete(c, t, alpha)
    ensures Gamma(c, t, alpha, value) == value <==> MasksMeet(c, t, alpha)
  {
    LeavesDifferAtPoint(c, t.run0, t.run1, alpha, t.cs);
    var p := PathIndex(alpha, |alpha|);
    XorIsSame(LeafMask(c, LeafSeeds(t.run0, t.cs)[p]), LeafMask(c, LeafSeeds(t.run1, t.cs)[p]), value);
  }

  lemma XorIsSame(a: Block, b: Block, v: Block)
    ensures Xor(Xor(a, b), v) == v <==> a == b
  {
    BitLaws();
    if Xor(Xor(a, b), v) == v {
      forall i | 0 <= i < 128 ensures a.bits[i] == b.bits[i] {
        assert Xor(Xor(a, b), v).bits[i] == v.bits[i];
      }
      Extensional(a, b);
    }
    if a == b {
      Extensional(Xor(Xor(a, b), v), v);
    }
  }

  /** Paths and seeds determine the runs and the correction words. */
  lemma RunsUnique(c: Cipher, prng: Prng, alpha: seq<seq<bool>>, values: seq<Block>, size: nat, key0: Key, key1: Key, ts: seq<TreeRun>,
                   size': nat, key0': Key, key1': Key, ts': seq<TreeRun>)
    requires KeysOf(c, prng, alpha, values, size, key0, key1, ts) && KeysOf(c, prng, alpha, values, size', key0', key1', ts')
    requires key0.seed == key0'.seed && key1.seed == key1'.seed && |alpha| > 0
    ensures ts == ts' && key0.corrs == key0'.corrs
  {
    forall k | 0 <= k < |ts| ensures ts[k] == ts'[k] {
      CompleteUnique(c, ts[k], ts'[k], alpha[k]);
    }
    SameRecords(ts, key0.corrs, key0'.corrs);
  }

  /** When tree `k` gets the same leaf correction from mask sums over `size` and over `size'` leaves. */
  ghost predicate SameGamma(c: Cipher, t: TreeRun, alpha: seq<bool>, size: nat, size': nat)
    requires Complete(c, t, alpha)
  {
    PathIndex(alpha, |alpha|) < size || size' <= PathIndex(alpha, |alpha|) || MasksMeet(c, t, alpha)
  }

  /** Paths, values, seeds and the leaves that are summed determine the keys. Summing more leaves gives the
      same keys exactly if no point lies among the additional ones, or the masks coincide there. */
  lemma KeysUnique(c: Cipher, prng: Prng, alpha: seq<seq<bool>>, values: seq<Block>, size: nat, key0: Key, key1: Key, ts: seq<TreeRun>,
                   size': nat, key0': Key, key1': Key, ts': seq<TreeRun>)
    requires KeysOf(c, prng, alpha, values, size, key0, key1, ts) && KeysOf(c, prng, alpha, values, size', key0', key1', ts')
    requires key0.seed == key0'.seed && key1.seed == key1'.seed && |alpha| > 0 && size <= size'
    ensures (key0 == key0' && key1 == key1') <==> forall k :: 0 <= k < |values| ==> SameGamma(c, ts[k], alpha[k], size, size')
  {
    RunsUnique(c, prng, alpha, values, size, key0, key1, ts, size', key0', key1', ts');
    forall k | 0 <= k < |values|
      ensures key0.leafVals[k] == key0'.leafVals[k] <==> SameGamma(c, ts[k], alpha[k], size, size')
    {
      BareGamma(c, ts[k], alpha[k], values[k]);
    }
    assert key0.leafVals == key0'.leafVals <==> forall k :: 0 <= k < |values| ==> key0.leafVals[k] == key0'.leafVals[k];
  }

  lemma SameRecords(ts: seq<TreeRun>, a: seq<seq<Correction>>, b: seq<seq<Correction>>)
    requires Recorded(ts, a) && Recorded(ts, b) && |ts| > 0
    ensures a == b
  {
    assert |ts[0].cs| == |a| == |b|;
    forall d | 0 <= d < |a| ensures a[d] == b[d] {
      forall k | 0 <= k < |ts| ensures a[d][k] == b[d][k] {
        assert a[d][k] == ts[k].cs[d];
      }
    }
  }
}
