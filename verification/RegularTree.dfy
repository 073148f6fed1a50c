// What a regular DPF computes for one tree: the correction words two parties
// agree on, the levels a party obtains from them, and the leaves.
module RegularTree {
  import opened Blocks
  import opened Words
  import opened DpfTree

  /** AES with the fixed key, one AES round and the 64-bit lane addition, all arbitrary. */
  datatype Cipher = Cipher(aes: Block -> Block, roundEnc: (Block, Block) -> Block, add64: (Block, Block) -> Block)

  function Child(c: Cipher, seed: Block, j: nat): Block {
    if j == 0 then c.roundEnc(c.aes(seed), seed) else c.add64(c.aes(seed), seed)
  }

  function ChildPrg(c: Cipher): Prg {
    (seed: Block, j: nat) => Child(c, seed, j)
  }

  /** The mask a leaf seed is turned into. */
  function LeafMask(c: Cipher, seed: Block): Block {
    c.roundEnc(seed, seed)
  }

  /** A level's correction: the left word, and the tag bit that replaces its lsb on the right. */
  datatype Correction = Correction(word: Block, bit: bool)

  function Sigma(c: Correction): (s: seq<Block>)
    ensures |s| == 2
  {
    [c.word, WithLsb(c.word, c.bit)]
  }

  /** Level 1 is random; the root's tag is the party index. */
  ghost function Root(party: bool, s0: Block, s1: Block): (l: Level)
    ensures Shaped(2, l) && |l.tags| == 1
  {
    Level([[s0, s1]], [party])
  }

  ghost predicate Opposed(r0: Level, r1: Level) {
    && Shaped(2, r0) && Shaped(2, r1) && |r0.tags| == |r1.tags| == 1
    && r0.tags[0] != r1.tags[0]
  }

  /** Correct a level, then expand it. */
  ghost function Next(c: Cipher, l: Level, corr: Correction): (r: Level)
    requires Shaped(2, l)
    ensures Shaped(2, r) && |r.tags| == 2 * |l.tags|
  {
    Expanded(2, ChildPrg(c), Corrected(2, l, Sigma(corr)))
  }

  /** A party's levels: `run[d]` holds the tags of level `d` and the seeds of level `d + 1`. */
  type Run = seq<Level>

  ghost predicate StepAt(c: Cipher, run: Run, cs: seq<Correction>, d: nat)
    requires d + 1 < |run| && d < |cs|
  {
    Shaped(2, run[d]) && run[d + 1] == Next(c, run[d], cs[d])
  }

  /** The levels a party obtains from correction words. */
  ghost predicate IsRun(c: Cipher, run: Run, cs: seq<Correction>) {
    && 0 < |run| <= |cs| + 1
    && (forall d :: 0 <= d < |run| ==> Shaped(2, run[d]) && |run[d].tags| == Pow2(d))
    && (forall d :: 0 <= d < |run| - 1 ==> StepAt(c, run, cs, d))
  }

  lemma ExtendRun(c: Cipher, run: Run, cs: seq<Correction>, l: Level)
    requires IsRun(c, run, cs) && |run| <= |cs| && l == Next(c, run[|run| - 1], cs[|run| - 1])
    ensures IsRun(c, run + [l], cs)
  {
    var run' := run + [l];
    forall d | 0 <= d < |run'| - 1 ensures StepAt(c, run', cs, d) {
      if d < |run| - 1 {
        assert StepAt(c, run, cs, d);
      }
    }
    assert |l.tags| == 2 * |run[|run| - 1].tags| == Pow2(|run|);
  }

  /** The correction for joint sums `z0`, `z1` when the next path bit is `a`. */
  function CorrectionFor(z0: Block, z1: Block, a: bool): Correction {
    Correction(WithLsb(if a then z0 else z1, Lsb(z0) != !a), Lsb(z1) != a)
  }

  ghost function JointCorrection(l0: Level, l1: Level, a: bool): Correction
    requires Shaped(2, l0) && Shaped(2, l1)
  {
    CorrectionFor(JointSum(l0, l1, 0), JointSum(l0, l1, 1), a)
  }

  ghost predicate CorrectionAt(run0: Run, run1: Run, alpha: seq<bool>, cs: seq<Correction>, d: nat)
    requires d < |cs| <= |alpha| && d < |run0| && d < |run1|
  {
    Shaped(2, run0[d]) && Shaped(2, run1[d]) && cs[d] == JointCorrection(run0[d], run1[d], alpha[d])
  }

  /** Two parties' runs on correction words made from their whole-level sums along `alpha`,
      most significant bit first. */
  ghost predicate JointRun(c: Cipher, run0: Run, run1: Run, alpha: seq<bool>, cs: seq<Correction>) {
    && |cs| <= |alpha| && |run0| == |run1| >= |cs|
    && IsRun(c, run0, cs) && IsRun(c, run1, cs)
    && Opposed(run0[0], run1[0])
    && (forall d :: 0 <= d < |cs| ==> CorrectionAt(run0, run1, alpha, cs, d))
  }

  /** The node reached by the first `d` bits of `alpha`. */
  function PathIndex(alpha: seq<bool>, d: nat): (i: nat)
    requires d <= |alpha|
    ensures i < Pow2(d)
  {
    if d == 0 then 0 else 2 * PathIndex(alpha, d - 1) + if alpha[d - 1] then 1 else 0
  }

  /** The low `depth` bits of a point, most significant first: bit `depth - iter` is used in round `iter`. */
  function PathBits(point: Word, depth: nat): (alpha: seq<bool>)
    requires depth <= 64
    ensures |alpha| == depth
    ensures forall d :: 0 <= d < depth ==> alpha[d] == point[depth - 1 - d]
  {
    seq(depth, d requires 0 <= d < depth => point[depth - 1 - d])
  }

  lemma PathValueStep(i: nat, a: bool, p: nat)
    ensures (2 * i + if a then 1 else 0) * p == i * (2 * p) + if a then p else 0
  {
  }

  /** Following a point's bits ends at the leaf whose index its low bits spell. */
  lemma {:induction false} PathIsValue(point: Word, depth: nat, d: nat)
    requires d <= depth <= 64
    ensures PathIndex(PathBits(point, depth), d) * Pow2(depth - d) + Value(point, depth - d) == Value(point, depth)
  {
    if d > 0 {
      PathIsValue(point, depth, d - 1);
      PathValueStep(PathIndex(PathBits(point, depth), d - 1), PathBits(point, depth)[d - 1], Pow2(depth - d));
    }
  }

  /** A correction built from joint sums cancels the inactive child and splits the active tags. */
  lemma CorrectionCancels(l0: Level, l1: Level, a: bool)
    requires Shaped(2, l0) && Shaped(2, l1)
    ensures Cancels(2, l0, l1, if a then 1 else 0, Sigma(JointCorrection(l0, l1, a)))
  {
    CorrectionForCancels(JointSum(l0, l1, 0), JointSum(l0, l1, 1), a);
  }

  lemma CorrectionForCancels(z0: Block, z1: Block, a: bool)
    ensures var s := Sigma(CorrectionFor(z0, z1, a));
            if a then s[0] == z0 && Lsb(s[1]) != Lsb(z1) else s[1] == z1 && Lsb(s[0]) != Lsb(z0)
  {
    var s := Sigma(CorrectionFor(z0, z1, a));
    if a {
      Extensional(s[0], z0);
    } else {
      Extensional(s[1], z1);
    }
  }

  lemma NextOnePath(c: Cipher, l0: Level, l1: Level, path: nat, a: bool)
    requires OnePath(2, l0, l1, path)
    ensures OnePath(2, Next(c, l0, JointCorrection(l0, l1, a)), Next(c, l1, JointCorrection(l0, l1, a)),
                    2 * path + if a then 1 else 0)
  {
    CorrectionCancels(l0, l1, a);
    var s, b := Sigma(JointCorrection(l0, l1, a)), if a then 1 else 0;
    CorrectedOnePath(2, l0, l1, path, b, s);
    ExpandedOnePath(2, ChildPrg(c), Corrected(2, l0, s), Corrected(2, l1, s), 2 * path + b);
  }

  /** At every level the two parties' trees differ only below the path node, whose tags differ. */
  lemma {:induction false} JointOnePath(c: Cipher, run0: Run, run1: Run, alpha: seq<bool>, cs: seq<Correction>, d: nat)
    requires JointRun(c, run0, run1, alpha, cs) && d < |run0| && d <= |alpha|
    ensures OnePath(2, run0[d], run1[d], PathIndex(alpha, d))
  {
    if d > 0 {
      JointOnePath(c, run0, run1, alpha, cs, d - 1);
      assert CorrectionAt(run0, run1, alpha, cs, d - 1);
      assert StepAt(c, run0, cs, d - 1) && StepAt(c, run1, cs, d - 1);
      NextOnePath(c, run0[d - 1], run1[d - 1], PathIndex(alpha, d - 1), alpha[d - 1]);
    }
  }

  lemma SameStep(c: Cipher, run: Run, cs: seq<Correction>, other: Run, cs': seq<Correction>, d: nat)
    requires IsRun(c, run, cs) && IsRun(c, other, cs') && d + 1 < |run| && d + 1 < |other|
    requires run[d] == other[d] && cs[d] == cs'[d]
    ensures run[d + 1] == other[d + 1]
  {
    assert StepAt(c, run, cs, d) && StepAt(c, other, cs', d);
  }

  /** Level sums and path bits determine every level and every correction word. */
  lemma {:induction false} JointRunsUnique(c: Cipher, run0: Run, run1: Run, alpha: seq<bool>, cs: seq<Correction>,
                                           other0: Run, other1: Run, cs': seq<Correction>, d: nat)
    requires JointRun(c, run0, run1, alpha, cs) && JointRun(c, other0, other1, alpha, cs')
    requires run0[0] == other0[0] && run1[0] == other1[0]
    requires d < |run0| && d < |other0| && d < |cs| && d < |cs'|
    ensures run0[d] == other0[d] && run1[d] == other1[d] && cs[d] == cs'[d]
  {
    if d > 0 {
      JointRunsUnique(c, run0, run1, alpha, cs, other0, other1, cs', d - 1);
      SameStep(c, run0, cs, other0, cs', d - 1);
      SameStep(c, run1, cs, other1, cs', d - 1);
    }
    assert CorrectionAt(run0, run1, alpha, cs, d) && CorrectionAt(other0, other1, alpha, cs', d);
  }

  /** The corrected leaf seeds of a party's tree of depth `|cs|`. */
  ghost function LeafSeeds(run: Run, cs: seq<Correction>): seq<Block>
    requires |run| >= |cs| > 0 && Shaped(2, run[|cs| - 1])
  {
    Corrected(2, run[|cs| - 1], Sigma(cs[|cs| - 1]))
  }

  lemma LeafStep(l0: Level, l1: Level, path: nat, a: bool, s: seq<Block>)
    requires OnePath(2, l0, l1, path) && s == Sigma(JointCorrection(l0, l1, a))
    ensures OneNode(Corrected(2, l0, s), Corrected(2, l1, s), 2 * path + if a then 1 else 0)
  {
    CorrectionCancels(l0, l1, a);
    CorrectedOnePath(2, l0, l1, path, if a then 1 else 0, s);
  }

  /** Leaf seeds agree off the point, where their tags differ. */
  lemma LeavesDifferAtPoint(c: Cipher, run0: Run, run1: Run, alpha: seq<bool>, cs: seq<Correction>)
    requires JointRun(c, run0, run1, alpha, cs) && |cs| == |alpha| > 0
    ensures OneNode(LeafSeeds(run0, cs), LeafSeeds(run1, cs), PathIndex(alpha, |alpha|))
  {
    var d := |alpha| - 1;
    JointOnePath(c, run0, run1, alpha, cs, d);
    assert CorrectionAt(run0, run1, alpha, cs, d);
    LeafStep(run0[d], run1[d], PathIndex(alpha, d), alpha[d], Sigma(cs[d]));
  }

  ghost function Masks(c: Cipher, seeds: seq<Block>): seq<Block> {
    seq(|seeds|, i requires 0 <= i < |seeds| => LeafMask(c, seeds[i]))
  }

  /** Summing the masks of all leaves below any bound above the point leaves those of the point. */
  lemma MaskSumCollapses(c: Cipher, s0: seq<Block>, s1: seq<Block>, p: nat, size: nat)
    requires OneNode(s0, s1, p) && p < size <= |s0|
    ensures Xor(XorAll(Masks(c, s0[..size])), XorAll(Masks(c, s1[..size]))) == Xor(LeafMask(c, s0[p]), LeafMask(c, s1[p]))
  {
    SumOfTwins(Masks(c, s0[..size]), Masks(c, s1[..size]), p);
  }

  /** Over a range without the point the mask sums agree. */
  lemma MaskSumCancels(c: Cipher, s0: seq<Block>, s1: seq<Block>, p: nat, size: nat)
    requires OneNode(s0, s1, p) && size <= p
    ensures Xor(XorAll(Masks(c, s0[..size])), XorAll(Masks(c, s1[..size]))) == ZERO
  {
    assert s0[..size] == s1[..size];
    XorSelf(XorAll(Masks(c, s0[..size])));
  }

  /** gamma: turns the leaf masks at the point into shares of the value. */
  function LeafCorrection(c: Cipher, s0: Block, s1: Block, value: Block): Block {
    Xor(Xor(LeafMask(c, s0), LeafMask(c, s1)), value)
  }

  /** What a party outputs at a leaf. */
  function Output(c: Cipher, seed: Block, gamma: Block): Block {
    Xor(LeafMask(c, seed), Mask(Lsb(seed), gamma))
  }

  /** Outputs and tags of a leaf share the point function with this value. */
  ghost predicate SharesAt(c: Cipher, s0: Block, s1: Block, gamma: Block, isPoint: bool, value: Block) {
    && Xor(Output(c, s0, gamma), Output(c, s1, gamma)) == Mask(isPoint, value)
    && (Lsb(s0) != Lsb(s1) <==> isPoint)
  }

  /** The two parties' outputs are shares of the point function. */
  lemma OutputsSharePoint(c: Cipher, s0: seq<Block>, s1: seq<Block>, p: nat, value: Block, i: nat)
    requires OneNode(s0, s1, p) && i < |s0|
    ensures SharesAt(c, s0[i], s1[i], LeafCorrection(c, s0[p], s1[p], value), i == p, value)
  {
    if i == p {
      Unmask(LeafMask(c, s0[p]), LeafMask(c, s1[p]), value, Lsb(s0[p]));
    } else {
      XorSelf(Output(c, s0[i], LeafCorrection(c, s0[p], s1[p], value)));
    }
  }

  lemma Unmask(m0: Block, m1: Block, value: Block, t: bool)
    ensures var gamma := Xor(Xor(m0, m1), value);
            Xor(Xor(m0, Mask(t, gamma)), Xor(m1, Mask(!t, gamma))) == value
  {
    var gamma := Xor(Xor(m0, m1), value);
    BitLaws();
    Extensional(Xor(Xor(m0, Mask(t, gamma)), Xor(m1, Mask(!t, gamma))), value);
  }
}
