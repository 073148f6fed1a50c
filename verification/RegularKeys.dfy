// Keys of the regular DPF, what they record of a joint run of their trees, and distributed key generation.
module RegularKeys {
  import opened Blocks
  import opened Words
  import opened DpfTree
  import opened RegularTree
  import opened RegularRows
  import opened RegularDpf
  import DpfMult

  type Prng = (Block, nat) -> Block

  /** `RegularDpfKey`: one correction word per level and tree, one leaf correction per tree. */
  datatype Key = Key(seed: Block, corrs: seq<seq<Correction>>, leafVals: seq<Block>)

  /** A pair of keys for trees with these paths and values, with the runs that justify them. The leaf
      corrections sum the masks of the leaves below `size`. */
  ghost predicate KeysOf(c: Cipher, prng: Prng, alpha: seq<seq<bool>>, values: seq<Block>, size: nat, key0: Key, key1: Key, ts: seq<TreeRun>) {
    && |ts| == |alpha| && (values == [] || |values| == |alpha|)
    && key0.corrs == key1.corrs && key0.leafVals == key1.leafVals && |key0.leafVals| == |values|
    && Recorded(ts, key0.corrs)
    && StartAt(ts, Roots(false, |ts|, key0.seed, prng), Roots(true, |ts|, key1.seed, prng))
    && (forall k :: 0 <= k < |ts| ==> Complete(c, ts[k], alpha[k]))
    && (forall k :: 0 <= k < |values| ==> key0.leafVals[k] == GammaBelow(c, ts[k], alpha[k], size, values[k]))
  }

  /** The inputs `init` and `implExpand` accept. */
  predicate Accepts(domain: nat, numPoints: nat, points: nat, values: nat) {
    2 <= domain <= Pow2(64) && numPoints > 0 && points == numPoints && (values == 0 || values == numPoints)
  }

  lemma DepthFits(domain: nat)
    requires 2 <= domain <= Pow2(64)
    ensures 0 < Log2Ceil(domain) <= 64 && domain <= RoundUp2(domain) <= Pow2(Log2Ceil(domain))
  {
    var d := Log2Ceil(domain);
    if d > 64 {
      Pow2Monotone(64, d - 1);
    }
    assert Pow2(d) == 2 * Pow2(d - 1);
  }

  /** `log2ceil(domain)`. */
  function Depth(domain: nat): (d: nat)
    requires 2 <= domain <= Pow2(64)
    ensures 0 < d <= 64 && domain <= RoundUp2(domain) <= Pow2(d)
  {
    DepthFits(domain);
    Log2Ceil(domain)
  }

  /** `roundUpTo(domain, 2)`. */
  function RoundUp2(domain: nat): nat {
    (domain + 1) / 2 * 2
  }

  /** A complete forest: what `Rounds` leaves for `Fix`. */
  lemma LeafSeedsAreFixed(c: Cipher, ts: seq<TreeRun>, alpha: seq<seq<bool>>, depth: nat, f0: seq<Level>, f1: seq<Level>,
                          corrs: seq<seq<Correction>>, k: nat)
    requires depth > 0 && AllCorrected(c, ts, alpha, depth, f0, f1) && Recorded(ts, corrs) && |corrs| == depth && k < |ts|
    requires forall q :: 0 <= q < |alpha| ==> |alpha[q]| == depth
    ensures Complete(c, ts[k], alpha[k])
    ensures LeafSeeds(ts[k].run0, ts[k].cs) == Corrected(2, f0[k], Sigma(corrs[depth - 1][k]))
    ensures LeafSeeds(ts[k].run1, ts[k].cs) == Corrected(2, f1[k], Sigma(corrs[depth - 1][k]))
  {
  }

  lemma RootsOpposed(n: nat, seed0: Block, seed1: Block, prng: Prng)
    ensures forall k :: 0 <= k < n ==> Opposed(Roots(false, n, seed0, prng)[k], Roots(true, n, seed1, prng)[k])
  {
    forall k | 0 <= k < n ensures Opposed(Roots(false, n, seed0, prng)[k], Roots(true, n, seed1, prng)[k]) {
      assert Roots(false, n, seed0, prng)[k] == Root(false, prng(seed0, 2 * k), prng(seed0, 2 * k + 1));
      assert Roots(true, n, seed1, prng)[k] == Root(true, prng(seed1, 2 * k), prng(seed1, 2 * k + 1));
    }
  }

  /** Both parties after the interactive rounds, in fresh buffers. */
  method StartAndRound(c: Cipher, prng: Prng, depth: nat, points0: seq<Word>, points1: seq<Word>, seed0: Block, seed1: Block,
                       m0: DpfMult.Multiplier, m1: DpfMult.Multiplier)
    returns (p0: Party, p1: Party, corrs: seq<seq<Correction>>, ghost ts: seq<TreeRun>)
    requires 0 < depth <= 64 && |points0| == |points1| > 0
    requires m0 != m1 && DpfMult.Correlated(m0, m1) && m0.otIdx == 0 && m0.totalMults == |points0| * depth
    modifies m0`otIdx, m1`otIdx
    ensures fresh(p0) && fresh(p1) && fresh(p0.s) && fresh(p1.s) && Apart(p0, p1)
    ensures p0.n == |points0| && p0.depth == depth
    ensures RoundsDone(c, p0, p1, m0, m1, Paths(points0, points1, depth), ts, corrs,
                       Roots(false, |points0|, seed0, prng), Roots(true, |points0|, seed1, prng))
  {
    p0 := new Party(false, |points0|, depth, seed0, prng);
    p1 := new Party(true, |points0|, depth, seed1, prng);
    RootsOpposed(|points0|, seed0, seed1, prng);
    corrs, ts := Rounds(c, p0, p1, m0, m1, points0, points1);
  }

  /** Both parties' leaves belong to the leaf seeds of complete trees. */
  ghost predicate LeavesDone(c: Cipher, ts: seq<TreeRun>, alpha: seq<seq<bool>>, size: nat, l0: LeafRows, l1: LeafRows) {
    && |ts| == |alpha| && LeafShape(l0, size, |ts|) && LeafShape(l1, size, |ts|)
    && forall k :: 0 <= k < |ts| ==>
         && Complete(c, ts[k], alpha[k])
         && TreeLeaves(c, LeafSeeds(ts[k].run0, ts[k].cs), l0, size, k)
         && TreeLeaves(c, LeafSeeds(ts[k].run1, ts[k].cs), l1, size, k)
  }

  method FixBoth(c: Cipher, p0: Party, p1: Party, corrs: seq<seq<Correction>>, size: nat, ghost ts: seq<TreeRun>, ghost alpha: seq<seq<bool>>)
    returns (l0: LeafRows, l1: LeafRows)
    requires Apart(p0, p1) && p0.Valid() && p1.Valid() && p0.iter == p1.iter == p0.depth && size <= Pow2(p0.depth)
    requires |ts| == p0.n && Recorded(ts, corrs) && |corrs| == p0.depth
    requires AllCorrected(c, ts, alpha, p0.depth, p0.forest, p1.forest)
    requires forall q :: 0 <= q < |alpha| ==> |alpha[q]| == p0.depth
    modifies p0.s, p1.s
    ensures LeavesDone(c, ts, alpha, size, l0, l1)
  {
    var corr := corrs[p0.depth - 1];
    ghost var depth, f0, f1 := p0.depth, p0.forest, p1.forest;
    l0 := p0.Fix(c, corr, size);
    assert AllLeaves(c, f0, corr, l0, size);
    l1 := p1.Fix(c, corr, size);
    assert AllLeaves(c, f1, corr, l1, size);
    FixedLeavesDone(c, ts, alpha, depth, f0, f1, corrs, size, l0, l1);
  }

  lemma FixedLeavesDone(c: Cipher, ts: seq<TreeRun>, alpha: seq<seq<bool>>, depth: nat, f0: seq<Level>, f1: seq<Level>,
                        corrs: seq<seq<Correction>>, size: nat, l0: LeafRows, l1: LeafRows)
    requires depth > 0 && AllCorrected(c, ts, alpha, depth, f0, f1) && Recorded(ts, corrs) && |corrs| == depth
    requires forall q :: 0 <= q < |alpha| ==> |alpha[q]| == depth
    requires LeafShape(l0, size, |ts|) && AllLeaves(c, f0, corrs[depth - 1], l0, size)
    requires LeafShape(l1, size, |ts|) && AllLeaves(c, f1, corrs[depth - 1], l1, size)
    ensures LeavesDone(c, ts, alpha, size, l0, l1)
  {
    forall k | 0 <= k < |ts|
      ensures Complete(c, ts[k], alpha[k])
      ensures TreeLeaves(c, LeafSeeds(ts[k].run0, ts[k].cs), l0, size, k)
      ensures TreeLeaves(c, LeafSeeds(ts[k].run1, ts[k].cs), l1, size, k)
    {
      LeafSeedsAreFixed(c, ts, alpha, depth, f0, f1, corrs, k);
    }
  }

  /** `gamma` are the leaf corrections of complete trees, for mask sums over the leaves below `size`. */
  ghost predicate GammasOf(c: Cipher, ts: seq<TreeRun>, alpha: seq<seq<bool>>, values: seq<Block>, size: nat, gamma: Row) {
    && |ts| == |alpha| == |values| == |gamma|
    && forall k :: 0 <= k < |ts| ==> Complete(c, ts[k], alpha[k]) && gamma[k] == GammaBelow(c, ts[k], alpha[k], size, values[k])
  }

  /** The opened leaf corrections are those of the trees. */
  lemma GammasOpened(c: Cipher, ts: seq<TreeRun>, alpha: seq<seq<bool>>, size: nat, l0: LeafRows, l1: LeafRows,
                     values0: Row, values1: Row, gamma: Row)
    requires LeavesDone(c, ts, alpha, size, l0, l1)
    requires |values0| == |values1| == |gamma| == |ts|
    requires forall k :: 0 <= k < |ts| ==> gamma[k] == Xor(Xor(l0.diff[k], l1.diff[k]), Xor(values0[k], values1[k]))
    ensures GammasOf(c, ts, alpha, XorRow(values0, values1), size, gamma)
  {
    forall k | 0 <= k < |ts| ensures gamma[k] == GammaBelow(c, ts[k], alpha[k], size, XorRow(values0, values1)[k]) {
      GammaOpened(c, ts[k], alpha[k], size, k, l0, l1, values0[k], values1[k]);
    }
  }

  method OpenGammas(l0: LeafRows, l1: LeafRows, values0: Row, values1: Row, ghost c: Cipher, ghost ts: seq<TreeRun>,
                    ghost alpha: seq<seq<bool>>, ghost size: nat)
    returns (gamma0: Row, gamma1: Row)
    requires LeavesDone(c, ts, alpha, size, l0, l1) && |values0| == |values1| == |ts|
    ensures gamma0 == gamma1 && GammasOf(c, ts, alpha, XorRow(values0, values1), size, gamma0)
  {
    gamma0, gamma1 := OpenGamma(l0.diff, values0, l1.diff, values1);
    GammasOpened(c, ts, alpha, size, l0, l1, values0, values1, gamma0);
  }

  /** Key generation without values stops after the rounds. */
  method KeysWithoutValues(c: Cipher, prng: Prng, depth: nat, points0: seq<Word>, points1: seq<Word>, seed0: Block, seed1: Block,
                           m0: DpfMult.Multiplier, m1: DpfMult.Multiplier, ghost size: nat)
    returns (key0: Key, key1: Key, ghost ts: seq<TreeRun>)
    requires 0 < depth <= 64 && |points0| == |points1| > 0
    requires m0 != m1 && DpfMult.Correlated(m0, m1) && m0.otIdx == 0 && m0.totalMults == |points0| * depth
    modifies m0`otIdx, m1`otIdx
    ensures key0.seed == seed0 && key1.seed == seed1 && m0.otIdx == m1.otIdx == m0.totalMults
    ensures KeysOf(c, prng, Paths(points0, points1, depth), [], size, key0, key1, ts)
  {
    var p0, p1, corrs;
    p0, p1, corrs, ts := StartAndRound(c, prng, depth, points0, points1, seed0, seed1, m0, m1);
    key0, key1 := Key(seed0, corrs, []), Key(seed1, corrs, []);
    AllComplete(c, ts, Paths(points0, points1, depth), depth, p0.forest, p1.forest);
  }

  lemma AllComplete(c: Cipher, ts: seq<TreeRun>, alpha: seq<seq<bool>>, depth: nat, f0: seq<Level>, f1: seq<Level>)
    requires depth > 0 && AllCorrected(c, ts, alpha, depth, f0, f1) && forall q :: 0 <= q < |alpha| ==> |alpha[q]| == depth
    ensures forall k :: 0 <= k < |ts| ==> Complete(c, ts[k], alpha[k])
  {
  }

  /** The rounds, then the leaves below `size`, of both parties. */
  method RoundsAndLeaves(c: Cipher, prng: Prng, depth: nat, size: nat, points0: seq<Word>, points1: seq<Word>, seed0: Block, seed1: Block,
                         m0: DpfMult.Multiplier, m1: DpfMult.Multiplier)
    returns (corrs: seq<seq<Correction>>, l0: LeafRows, l1: LeafRows, ghost ts: seq<TreeRun>)
    requires 0 < depth <= 64 && |points0| == |points1| > 0 && size <= Pow2(depth)
    requires m0 != m1 && DpfMult.Correlated(m0, m1) && m0.otIdx == 0 && m0.totalMults == |points0| * depth
    modifies m0`otIdx, m1`otIdx
    ensures m0.otIdx == m1.otIdx == m0.totalMults && |ts| == |points0| && |corrs| == depth && Recorded(ts, corrs)
    ensures LeavesDone(c, ts, Paths(points0, points1, depth), size, l0, l1)
    ensures StartAt(ts, Roots(false, |points0|, seed0, prng), Roots(true, |points0|, seed1, prng))
  {
    var p0, p1;
    p0, p1, corrs, ts := StartAndRound(c, prng, depth, points0, points1, seed0, seed1, m0, m1);
    l0, l1 := FixBoth(c, p0, p1, corrs, size, ts, Paths(points0, points1, depth));
  }

  datatype KeyGenResult = Rejected | Keys(key0: Key, key1: Key)

  /** Distributed key generation (`implExpand` with an output key), both parties. Values may be absent. */
  method DistributedKeyGen(c: Cipher, prng: Prng, domain: nat, numPoints: nat, points0: seq<Word>, points1: seq<Word>,
                           values0: seq<Block>, values1: seq<Block>, seed0: Block, seed1: Block,
                           m0: DpfMult.Multiplier, m1: DpfMult.Multiplier)
    returns (r: KeyGenResult, ghost ts: seq<TreeRun>)
    requires |points0| == |points1| && |values0| == |values1|
    requires m0 != m1 && DpfMult.Correlated(m0, m1) && m0.otIdx == 0
    requires 2 <= domain <= Pow2(64) ==> m0.totalMults == numPoints * Log2Ceil(domain)
    modifies m0`otIdx, m1`otIdx
    ensures r.Keys? <==> Accepts(domain, numPoints, |points0|, |values0|)
    ensures r.Keys? ==> r.key0.seed == seed0 && r.key1.seed == seed1 && m0.otIdx == m1.otIdx == m0.totalMults
    ensures r.Keys? ==> KeysOf(c, prng, Paths(points0, points1, Depth(domain)), XorRow(values0, values1), RoundUp2(domain), r.key0, r.key1, ts)
  {
    ts := [];
    if domain < 2 || domain > Pow2(64) || numPoints == 0 || |points0| != numPoints || (|values0| != 0 && |values0| != numPoints) {
      return Rejected, ts;
    }
    var depth := Depth(domain);
    if |values0| == 0 {
      var key0, key1;
      key0, key1, ts := KeysWithoutValues(c, prng, depth, points0, points1, seed0, seed1, m0, m1, RoundUp2(domain));
      return Keys(key0, key1), ts;
    }
    var size := RoundUp2(domain);
    var corrs, l0, l1;
    corrs, l0, l1, ts := RoundsAndLeaves(c, prng, depth, size, points0, points1, seed0, seed1, m0, m1);
    var gamma0, gamma1 := OpenGammas(l0, l1, values0, values1, c, ts, Paths(points0, points1, depth), size);
    r := Keys(Key(seed0, corrs, gamma0), Key(seed1, corrs, gamma1));
  }
}
