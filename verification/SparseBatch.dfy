/** `SparseDpf::expand` of two parties for a batch of trees. */
module SparseBatch {
  import opened Blocks
  import opened Words
  import opened SparseTrie
  import opened SparseTree
  import opened SparsePair
  import opened SparseDpf
  import DpfMult

  type Trees = seq<Tree>
  type Owners = seq<seq<(nat, nat)>>

  /** The trees of both parties, each with its own points; levels from `known` on are corrected, `level` is next. */
  ghost predicate AllInv(cs: seq<Ctx>, acts: seq<seq<bool>>, known: nat, ts0: Trees, ts1: Trees, owns: Owners, level: nat) {
    && |cs| == |acts| == |ts0| == |ts1| == |owns|
    && forall r :: 0 <= r < |cs| ==> TreeInv(cs[r], acts[r], known, ts0[r], ts1[r], owns[r], level, 0)
  }

  ghost predicate SameDepth(cs: seq<Ctx>, depth: nat) {
    |cs| > 0 && forall r :: 0 <= r < |cs| ==> cs[r].depth == depth
  }

  // ---------------------------------------------------------------- used levels

  /** `used`: whether any tree of the batch has entries that refer to level `d`. */
  predicate AnyUsed(ts: Trees, d: nat) {
    exists r :: 0 <= r < |ts| && d < |ts[r].used| && ts[r].used[d]
  }

  /** The number of levels above `lo` that some tree uses. */
  function UsedLevels(ts: Trees, lo: nat, depth: nat): nat
    decreases if lo < depth then depth - lo else 0
  {
    if lo >= depth then 0 else UsedLevels(ts, lo + 1, depth) + if AnyUsed(ts, lo + 1) then 1 else 0
  }

  /** The levels above `lo` are used in `ts'` as in `ts`. */
  ghost predicate SameUse(ts: Trees, ts': Trees, lo: nat) {
    |ts| == |ts'| && forall r :: 0 <= r < |ts| ==> |ts[r].used| == |ts'[r].used| && forall q :: lo < q < |ts[r].used| ==> ts[r].used[q] == ts'[r].used[q]
  }

  lemma {:induction false} UsedLevelsSame(ts: Trees, ts': Trees, lo: nat, depth: nat)
    requires SameUse(ts, ts', lo)
    ensures UsedLevels(ts, lo, depth) == UsedLevels(ts', lo, depth)
    decreases if lo < depth then depth - lo else 0
  {
    if lo < depth {
      UsedLevelsSame(ts, ts', lo + 1, depth);
      assert AnyUsed(ts, lo + 1) == AnyUsed(ts', lo + 1);
    }
  }

  /** Some tree of the batch has neighbours that split at level `q`. */
  ghost predicate AnySplit(cs: seq<Ctx>, q: nat) {
    exists r :: 0 <= r < |cs| && SplitsAt(cs[r].points, q)
  }

  ghost function SplitLevels(cs: seq<Ctx>, lo: nat, depth: nat): nat
    decreases if lo < depth then depth - lo else 0
  {
    if lo >= depth then 0 else SplitLevels(cs, lo + 1, depth) + if AnySplit(cs, lo + 1) then 1 else 0
  }

  /** In the end the used levels are those at which neighbours split. */
  lemma {:induction false} UsedAreSplit(cs: seq<Ctx>, acts: seq<seq<bool>>, ts0: Trees, ts1: Trees, owns: Owners, lo: nat, depth: nat)
    requires SameDepth(cs, depth) && AllInv(cs, acts, 1, ts0, ts1, owns, 0)
    ensures UsedLevels(ts0, lo, depth) == SplitLevels(cs, lo, depth)
    decreases if lo < depth then depth - lo else 0
  {
    if lo < depth {
      UsedAreSplit(cs, acts, ts0, ts1, owns, lo + 1, depth);
      forall r | 0 <= r < |cs| ensures lo + 1 < |ts0[r].used| && (ts0[r].used[lo + 1] <==> SplitsAt(cs[r].points, lo + 1)) {
        assert TreeInv(cs[r], acts[r], 1, ts0[r], ts1[r], owns[r], 0, 0);
        UsedIsSplit(cs[r], acts[r], 1, ts0[r], ts1[r], owns[r], lo + 1);
      }
    }
  }

  // ---------------------------------------------------------------- correcting a level

  /** Trees without entries of level `d` get random sums there. */
  function FillAll(ts: Trees, d: nat, fill: (nat, nat) -> (Block, Block)): (r: Trees)
    requires forall k :: 0 <= k < |ts| ==> d < |ts[k].used| == |ts[k].z|
    ensures |r| == |ts| && forall k :: 0 <= k < |ts| ==> r[k] == Filled(ts[k], d, fill(d, k))
  {
    seq(|ts|, k requires 0 <= k < |ts| => Filled(ts[k], d, fill(d, k)))
  }

  /** A tree's correction of level `d`, and one correction for each tree. */
  datatype Fix = Fix(sigma: Block, tau: (bool, bool))

  function CorrectedAll(ts: Trees, d: nat, fixes: seq<Fix>): (r: Trees)
    requires |ts| == |fixes| && forall k :: 0 <= k < |ts| ==> d < |ts[k].sigma| == |ts[k].tau|
    ensures |r| == |ts| && forall k :: 0 <= k < |ts| ==> r[k] == Corrected(ts[k], d, fixes[k].sigma, fixes[k].tau)
  {
    seq(|ts|, k requires 0 <= k < |ts| => Corrected(ts[k], d, fixes[k].sigma, fixes[k].tau))
  }

  ghost predicate FixFor(z0: (Block, Block), z1: (Block, Block), a: bool, f: Fix) {
    f.sigma == SigmaFor((Xor(z0.0, z1.0), Xor(z0.1, z1.1)), a) && f.tau == TauFor((Xor(z0.0, z1.0), Xor(z0.1, z1.1)), a)
  }

  /** One tree's part of the reveals: both parties open the product and their tag bits. */
  method Open(z0: (Block, Block), z1: (Block, Block), a0: bool, a1: bool, p0: Block, p1: Block) returns (f: Fix)
    requires Xor(p0, p1) == Mask(a0 != !a1, Xor(Xor(z0.0, z0.1), Xor(z1.0, z1.1)))
    ensures FixFor(z0, z1, a0 != a1, f)
  {
    OpenedSigma(z0, z1, p0, p1, a0 != a1);
    var tau0, tau1 := (Lsb(z0.0) != a0, Lsb(z0.1) != a0), ((Lsb(z1.0) != a1) != true, Lsb(z1.1) != a1);
    XorLsb(z0.0, z1.0);
    XorLsb(z0.1, z1.1);
    f := Fix(Xor(Xor(p0, z0.0), Xor(p1, z1.0)), (tau0.0 != tau1.0, tau0.1 != tau1.1));
  }

  function SumsOf(z: seq<(Block, Block)>): (r: seq<Block>)
    ensures |r| == |z| && forall k :: 0 <= k < |z| ==> r[k] == Xor(z[k].0, z[k].1)
  {
    seq(|z|, k requires 0 <= k < |z| => Xor(z[k].0, z[k].1))
  }

  function Negated(a: seq<bool>): (r: seq<bool>)
    ensures |r| == |a| && forall k :: 0 <= k < |a| ==> r[k] == !a[k]
  {
    seq(|a|, k requires 0 <= k < |a| => !a[k])
  }

  /** The reveals of a level, for all trees. */
  method OpenAll(z0: seq<(Block, Block)>, z1: seq<(Block, Block)>, a0: seq<bool>, a1: seq<bool>, p0: seq<Block>, p1: seq<Block>) returns (fixes: seq<Fix>)
    requires |z0| == |z1| && DpfMult.ShareProducts(a0, Negated(a1), SumsOf(z0), SumsOf(z1), p0, p1) && |z0| == |a0|
    ensures |fixes| == |z0| && forall r :: 0 <= r < |z0| ==> FixFor(z0[r], z1[r], a0[r] != a1[r], fixes[r])
  {
    fixes := [];
    while |fixes| < |z0|
      invariant |fixes| <= |z0| && forall r :: 0 <= r < |fixes| ==> FixFor(z0[r], z1[r], a0[r] != a1[r], fixes[r])
    {
      var r := |fixes|;
      assert Xor(p0[r], p1[r]) == Mask(a0[r] != Negated(a1)[r], Xor(SumsOf(z0)[r], SumsOf(z1)[r]));
      var f := Open(z0[r], z1[r], a0[r], a1[r], p0[r], p1[r]);
      fixes := fixes + [f];
    }
  }

  /** An array that holds a sequence. */
  method ArrayOf(s: seq<Block>) returns (a: array<Block>)
    ensures fresh(a) && a[..] == s
  {
    a := new Block[|s|](i requires 0 <= i < |s| => s[i]);
  }

  /** The multiplication of a level in place, for all trees, and the reveals. */
  method Fixes(m0: DpfMult.Multiplier, m1: DpfMult.Multiplier, z0: seq<(Block, Block)>, z1: seq<(Block, Block)>, a0: seq<bool>, a1: seq<bool>)
    returns (fixes: seq<Fix>)
    requires m0 != m1 && DpfMult.Correlated(m0, m1) && 0 < |z0| == |z1| == |a0| == |a1| && m0.otIdx + |z0| <= m0.totalMults
    modifies m0`otIdx, m1`otIdx
    ensures DpfMult.Correlated(m0, m1) && m0.otIdx == old(m0.otIdx) + |z0| && |fixes| == |z0|
    ensures forall r :: 0 <= r < |z0| ==> FixFor(z0[r], z1[r], a0[r] != a1[r], fixes[r])
  {
    var s0 := ArrayOf(SumsOf(z0));
    var s1 := ArrayOf(SumsOf(z1));
    var ok := DpfMult.MultiplyPair(m0, m1, a0, Negated(a1), s0, s1, s0, s1);
    fixes := OpenAll(z0, z1, a0, a1, s0[..], s1[..]);
  }

  /** The shares of the point XOR to it, bit by bit. */
  ghost predicate SharesOf(c: Ctx, alpha0: nat, alpha1: nat) {
    forall b :: 0 <= b < c.depth ==> BitAt(c.alpha, b) == (BitAt(alpha0, b) != BitAt(alpha1, b))
  }

  ghost predicate AllShares(cs: seq<Ctx>, alpha0: seq<nat>, alpha1: seq<nat>) {
    |cs| == |alpha0| == |alpha1| && forall r :: 0 <= r < |cs| ==> SharesOf(cs[r], alpha0[r], alpha1[r])
  }

  /** One tree when the batch corrects level `d`: corrected if it uses the level, otherwise changed where nothing refers to. */
  lemma TreeCorrected(c: Ctx, act: seq<bool>, d: nat, t0: Tree, t1: Tree, own: seq<(nat, nat)>, f0: (Block, Block), f1: (Block, Block), a: bool, f: Fix)
    requires 0 < d <= c.depth && TreeInv(c, act, d + 1, t0, t1, own, d - 1, 0) && a == BitAt(c.alpha, d - 1)
    requires FixFor(Filled(t0, d, f0).z[d], Filled(t1, d, f1).z[d], a, f)
    ensures var r0, r1 := Corrected(Filled(t0, d, f0), d, f.sigma, f.tau), Corrected(Filled(t1, d, f1), d, f.sigma, f.tau);
            TreeInv(c, act, d, r0, r1, own, d - 1, 0) && r0.used == t0.used
  {
    if t0.used[d] {
      CorrectLevel(c, act, d, t0, t1, own, a, f.sigma, f.tau);
    } else {
      SkipLevel(c, act, d, t0, t1, Corrected(Filled(t0, d, f0), d, f.sigma, f.tau), Corrected(Filled(t1, d, f1), d, f.sigma, f.tau), own);
    }
  }

  lemma TreeSkipped(c: Ctx, act: seq<bool>, d: nat, t0: Tree, t1: Tree, own: seq<(nat, nat)>, f0: (Block, Block), f1: (Block, Block))
    requires 0 < d <= c.depth && TreeInv(c, act, d + 1, t0, t1, own, d - 1, 0) && !t0.used[d]
    ensures TreeInv(c, act, d, Filled(t0, d, f0), Filled(t1, d, f1), own, d - 1, 0)
  {
    SkipLevel(c, act, d, t0, t1, Filled(t0, d, f0), Filled(t1, d, f1), own);
  }

  /** One tree's change when the batch corrects level `d`. */
  ghost predicate Changed(c: Ctx, act: seq<bool>, d: nat, t: Tree, r0: Tree, r1: Tree, own: seq<(nat, nat)>) {
    d > 0 && TreeInv(c, act, d, r0, r1, own, d - 1, 0) && r0.used == t.used
  }

  function ColumnZ(ts: Trees, d: nat): (r: seq<(Block, Block)>)
    requires forall k :: 0 <= k < |ts| ==> d < |ts[k].z|
    ensures |r| == |ts| && forall k :: 0 <= k < |ts| ==> r[k] == ts[k].z[d]
  {
    seq(|ts|, k requires 0 <= k < |ts| => ts[k].z[d])
  }

  function BitsAt(alpha: seq<nat>, b: nat): (r: seq<bool>)
    ensures |r| == |alpha| && forall k :: 0 <= k < |alpha| ==> r[k] == BitAt(alpha[k], b)
  {
    seq(|alpha|, k requires 0 <= k < |alpha| => BitAt(alpha[k], b))
  }

  /** A level that some tree uses: one multiplication with one OT per tree. */
  method CorrectUsed(m0: DpfMult.Multiplier, m1: DpfMult.Multiplier, cs: seq<Ctx>, ts0: Trees, ts1: Trees, d: nat, alpha0: seq<nat>, alpha1: seq<nat>,
                     fill0: (nat, nat) -> (Block, Block), fill1: (nat, nat) -> (Block, Block), ghost acts: seq<seq<bool>>, ghost owns: Owners, ghost depth: nat)
    returns (rs0: Trees, rs1: Trees)
    requires m0 != m1 && DpfMult.Correlated(m0, m1) && m0.otIdx + |cs| <= m0.totalMults && AllShares(cs, alpha0, alpha1)
    requires SameDepth(cs, depth) && 0 < d <= depth && AllInv(cs, acts, d + 1, ts0, ts1, owns, d - 1)
    requires forall r :: 0 <= r < |cs| ==> Shape(ts0[r], depth) && Shape(ts1[r], depth) && ts0[r].used == ts1[r].used
    modifies m0`otIdx, m1`otIdx
    ensures DpfMult.Correlated(m0, m1) && m0.otIdx == old(m0.otIdx) + |cs|
    ensures |rs0| == |rs1| == |cs| && forall r :: 0 <= r < |cs| ==> Changed(cs[r], acts[r], d, ts0[r], rs0[r], rs1[r], owns[r])
  {
    var fs0, fs1 := FillAll(ts0, d, fill0), FillAll(ts1, d, fill1);
    var a0, a1 := BitsAt(alpha0, d - 1), BitsAt(alpha1, d - 1);
    var fixes := Fixes(m0, m1, ColumnZ(fs0, d), ColumnZ(fs1, d), a0, a1);
    rs0, rs1 := CorrectedAll(fs0, d, fixes), CorrectedAll(fs1, d, fixes);
    forall r | 0 <= r < |cs| ensures Changed(cs[r], acts[r], d, ts0[r], rs0[r], rs1[r], owns[r]) {
      assert SharesOf(cs[r], alpha0[r], alpha1[r]);
      assert TreeInv(cs[r], acts[r], d + 1, ts0[r], ts1[r], owns[r], d - 1, 0);
      assert FixFor(fs0[r].z[d], fs1[r].z[d], a0[r] != a1[r], fixes[r]);
      TreeCorrected(cs[r], acts[r], d, ts0[r], ts1[r], owns[r], fill0(d, r), fill1(d, r), a0[r] != a1[r], fixes[r]);
    }
  }

  /** Level `d` of all trees: one OT per tree if any tree uses the level, none otherwise. */
  method CorrectAll(m0: DpfMult.Multiplier, m1: DpfMult.Multiplier, cs: seq<Ctx>, ts0: Trees, ts1: Trees, d: nat, alpha0: seq<nat>, alpha1: seq<nat>,
                    fill0: (nat, nat) -> (Block, Block), fill1: (nat, nat) -> (Block, Block), ghost acts: seq<seq<bool>>, ghost owns: Owners, ghost depth: nat)
    returns (rs0: Trees, rs1: Trees)
    requires m0 != m1 && DpfMult.Correlated(m0, m1) && m0.otIdx + |cs| <= m0.totalMults && AllShares(cs, alpha0, alpha1)
    requires SameDepth(cs, depth) && 0 < d <= depth && AllInv(cs, acts, d + 1, ts0, ts1, owns, d - 1)
    modifies m0`otIdx, m1`otIdx
    ensures DpfMult.Correlated(m0, m1) && m0.otIdx == old(m0.otIdx) + if AnyUsed(ts0, d) then |cs| else 0
    ensures AllInv(cs, acts, d, rs0, rs1, owns, d - 1) && SameUse(ts0, rs0, 0)
  {
    InvShapes(cs, acts, d + 1, ts0, ts1, owns, d - 1, depth);
    if AnyUsed(ts0, d) {
      rs0, rs1 := CorrectUsed(m0, m1, cs, ts0, ts1, d, alpha0, alpha1, fill0, fill1, acts, owns, depth);
    } else {
      rs0, rs1 := FillAll(ts0, d, fill0), FillAll(ts1, d, fill1);
      forall r | 0 <= r < |cs| ensures Changed(cs[r], acts[r], d, ts0[r], rs0[r], rs1[r], owns[r]) {
        assert TreeInv(cs[r], acts[r], d + 1, ts0[r], ts1[r], owns[r], d - 1, 0);
        assert !ts0[r].used[d];
        TreeSkipped(cs[r], acts[r], d, ts0[r], ts1[r], owns[r], fill0(d, r), fill1(d, r));
      }
    }
    ChangedAll(cs, acts, d, ts0, rs0, rs1, owns);
  }

  lemma ChangedAll(cs: seq<Ctx>, acts: seq<seq<bool>>, d: nat, ts: Trees, rs0: Trees, rs1: Trees, owns: Owners)
    requires d > 0 && |cs| == |acts| == |ts| == |rs0| == |rs1| == |owns|
    requires forall r :: 0 <= r < |cs| ==> Changed(cs[r], acts[r], d, ts[r], rs0[r], rs1[r], owns[r])
    ensures AllInv(cs, acts, d, rs0, rs1, owns, d - 1) && SameUse(ts, rs0, 0)
  {
    var l := d - 1;
    forall r | 0 <= r < |cs| ensures TreeInv(cs[r], acts[r], d, rs0[r], rs1[r], owns[r], l, 0) && rs0[r].used == ts[r].used {
      assert Changed(cs[r], acts[r], d, ts[r], rs0[r], rs1[r], owns[r]);
    }
  }

  lemma InvShapes(cs: seq<Ctx>, acts: seq<seq<bool>>, known: nat, ts0: Trees, ts1: Trees, owns: Owners, level: nat, depth: nat)
    requires SameDepth(cs, depth) && AllInv(cs, acts, known, ts0, ts1, owns, level)
    ensures forall r :: 0 <= r < |cs| ==> Shape(ts0[r], depth) && Shape(ts1[r], depth) && ts0[r].used == ts1[r].used
  {
    forall r | 0 <= r < |cs| ensures Shape(ts0[r], depth) && Shape(ts1[r], depth) && ts0[r].used == ts1[r].used {
      assert TreeInv(cs[r], acts[r], known, ts0[r], ts1[r], owns[r], level, 0);
    }
  }

  // ---------------------------------------------------------------- all levels

  /** Every tree expands its entries of a level. */
  method ExpandAll(prg: Prg, cs: seq<Ctx>, ts0: Trees, ts1: Trees, level: nat, ghost acts: seq<seq<bool>>, ghost owns: Owners, ghost depth: nat)
    returns (rs0: Trees, rs1: Trees, ghost acts': seq<seq<bool>>, ghost owns': Owners)
    requires SameDepth(cs, depth) && 0 < level <= depth && AllInv(cs, acts, level + 1, ts0, ts1, owns, level)
    ensures AllInv(cs, acts', level + 1, rs0, rs1, owns', level - 1) && SameUse(ts0, rs0, level)
  {
    rs0, rs1, acts', owns' := [], [], [], [];
    while |rs0| < |cs|
      invariant |rs0| == |rs1| == |acts'| == |owns'| <= |cs|
      invariant forall r :: 0 <= r < |rs0| ==> TreeInv(cs[r], acts'[r], level + 1, rs0[r], rs1[r], owns'[r], level - 1, 0)
      invariant SameUse(ts0[..|rs0|], rs0, level)
    {
      var r := |rs0|;
      var t0, t1;
      ghost var act, own;
      t0, t1, act, own := ExpandLevel(prg, cs[r], ts0[r], ts1[r], level, acts[r], owns[r]);
      rs0, rs1, acts', owns' := rs0 + [t0], rs1 + [t1], acts' + [act], owns' + [own];
    }
    assert ts0[..|rs0|] == ts0;
  }

  lemma MoreLevels(n: nat, k: nat, depth: nat, d: nat, total: nat)
    requires 0 < d <= depth && k <= depth - d && n * depth <= total
    ensures n * k + n <= total && n * k + n == n * (k + 1)
  {
    MulMonotone(n, k + 1, depth);
  }

  lemma {:induction false} UsedLevelsBound(ts: Trees, lo: nat, depth: nat)
    requires lo <= depth
    ensures UsedLevels(ts, lo, depth) <= depth - lo
    decreases depth - lo
  {
    if lo < depth {
      UsedLevelsBound(ts, lo + 1, depth);
    }
  }

  /** The OTs used once the levels above `d` are corrected: one per tree for each used level. */
  ghost predicate Consumed(start: nat, now: nat, n: nat, ts: Trees, d: nat, depth: nat) {
    now == start + n * UsedLevels(ts, d, depth)
  }

  lemma ConsumedMore(start: nat, now: nat, n: nat, ts: Trees, rs: Trees, d: nat, depth: nat)
    requires 0 < d <= depth && Consumed(start, now, n, ts, d, depth) && SameUse(ts, rs, d - 1)
    ensures Consumed(start, now + if AnyUsed(ts, d) then n else 0, n, rs, d - 1, depth)
  {
    UsedLevelsSame(ts, rs, d - 1, depth);
    var k := UsedLevels(ts, d, depth);
    assert n * (k + 1) == n * k + n;
  }

  /** All levels, from the top. */
  method Levels(prg: Prg, m0: DpfMult.Multiplier, m1: DpfMult.Multiplier, cs: seq<Ctx>, ts0: Trees, ts1: Trees, depth: nat, alpha0: seq<nat>, alpha1: seq<nat>,
                fill0: (nat, nat) -> (Block, Block), fill1: (nat, nat) -> (Block, Block), ghost acts: seq<seq<bool>>, ghost owns: Owners)
    returns (rs0: Trees, rs1: Trees, ghost acts': seq<seq<bool>>, ghost owns': Owners)
    requires m0 != m1 && DpfMult.Correlated(m0, m1) && m0.otIdx + |cs| * depth <= m0.totalMults && AllShares(cs, alpha0, alpha1)
    requires SameDepth(cs, depth) && depth > 0 && AllInv(cs, acts, depth + 1, ts0, ts1, owns, depth - 1)
    modifies m0`otIdx, m1`otIdx
    ensures DpfMult.Correlated(m0, m1) && AllInv(cs, acts', 1, rs0, rs1, owns', 0)
    ensures Consumed(old(m0.otIdx), m0.otIdx, |cs|, rs0, 0, depth)
  {
    rs0, rs1, acts', owns' := ts0, ts1, acts, owns;
    var d: nat := depth;
    while d > 1
      invariant 0 < d <= depth && AllInv(cs, acts', d + 1, rs0, rs1, owns', d - 1)
      invariant DpfMult.Correlated(m0, m1) && m0.totalMults == old(m0.totalMults) && Consumed(old(m0.otIdx), m0.otIdx, |cs|, rs0, d, depth)
    {
      rs0, rs1, acts', owns' := Level(prg, m0, m1, cs, rs0, rs1, d, depth, alpha0, alpha1, fill0, fill1, acts', owns', old(m0.otIdx));
      d := d - 1;
    }
    UsedLevelsBound(rs0, 1, depth);
    MoreLevels(|cs|, UsedLevels(rs0, 1, depth), depth, 1, |cs| * depth);
    ghost var ws, at := rs0, m0.otIdx;
    rs0, rs1 := CorrectAll(m0, m1, cs, rs0, rs1, 1, alpha0, alpha1, fill0, fill1, acts', owns', depth);
    ConsumedMore(old(m0.otIdx), at, |cs|, ws, rs0, 1, depth);
  }

  /** Correcting a level and expanding the next. */
  method Level(prg: Prg, m0: DpfMult.Multiplier, m1: DpfMult.Multiplier, cs: seq<Ctx>, ts0: Trees, ts1: Trees, d: nat, depth: nat,
               alpha0: seq<nat>, alpha1: seq<nat>, fill0: (nat, nat) -> (Block, Block), fill1: (nat, nat) -> (Block, Block),
               ghost acts: seq<seq<bool>>, ghost owns: Owners, ghost start: nat)
    returns (rs0: Trees, rs1: Trees, ghost acts': seq<seq<bool>>, ghost owns': Owners)
    requires m0 != m1 && DpfMult.Correlated(m0, m1) && start + |cs| * depth <= m0.totalMults && AllShares(cs, alpha0, alpha1)
    requires SameDepth(cs, depth) && 1 < d <= depth && AllInv(cs, acts, d + 1, ts0, ts1, owns, d - 1)
    requires Consumed(start, m0.otIdx, |cs|, ts0, d, depth)
    modifies m0`otIdx, m1`otIdx
    ensures DpfMult.Correlated(m0, m1) && AllInv(cs, acts', d, rs0, rs1, owns', d - 2)
    ensures Consumed(start, m0.otIdx, |cs|, rs0, d - 1, depth)
  {
    UsedLevelsBound(ts0, d, depth);
    MoreLevels(|cs|, UsedLevels(ts0, d, depth), depth, d, |cs| * depth);
    var us0, us1 := CorrectAll(m0, m1, cs, ts0, ts1, d, alpha0, alpha1, fill0, fill1, acts, owns, depth);
    rs0, rs1, acts', owns' := ExpandAll(prg, cs, us0, us1, d - 1, acts, owns, depth);
    ConsumedMore(start, old(m0.otIdx), |cs|, ts0, rs0, d, depth);
  }

  // ---------------------------------------------------------------- the whole run

  /** A party's outputs and tags of one tree. */
  datatype Leaves = Leaves(out: seq<Block>, tags: seq<bool>)

  method StartAll(cs: seq<Ctx>, s0: seq<(Block, Block)>, s1: seq<(Block, Block)>, ghost depth: nat)
    returns (ts0: Trees, ts1: Trees, ghost acts: seq<seq<bool>>, ghost owns: Owners)
    requires SameDepth(cs, depth) && |cs| == |s0| == |s1| && forall r :: 0 <= r < |cs| ==> Listed(cs[r])
    ensures depth > 0 && AllInv(cs, acts, depth + 1, ts0, ts1, owns, depth - 1)
  {
    ts0, ts1, acts, owns := [], [], [], [];
    while |ts0| < |cs|
      invariant |ts0| == |ts1| == |acts| == |owns| <= |cs| && (|ts0| > 0 ==> depth > 0)
      invariant forall r :: 0 <= r < |ts0| ==> TreeInv(cs[r], acts[r], depth + 1, ts0[r], ts1[r], owns[r], depth - 1, 0)
    {
      var r := |ts0|;
      var t0, t1;
      ghost var act, own;
      t0, t1, act, own := Start(cs[r], s0[r], s1[r]);
      ts0, ts1, acts, owns := ts0 + [t0], ts1 + [t1], acts + [act], owns + [own];
    }
  }

  /** Both parties' outputs of a tree share `v` at the position of its active point and zero elsewhere. */
  ghost predicate SharePoint(c: Ctx, l0: Leaves, l1: Leaves, v: Block) {
    forall x :: 0 <= x < |c.points| ==> SharedAt(l0.out, l0.tags, l1.out, l1.tags, x, c.ia, v)
  }

  method OutputAll(cs: seq<Ctx>, ts0: Trees, ts1: Trees, v0: seq<Block>, v1: seq<Block>, ghost acts: seq<seq<bool>>, ghost owns: Owners)
    returns (ls0: seq<Leaves>, ls1: seq<Leaves>)
    requires AllInv(cs, acts, 1, ts0, ts1, owns, 0) && |cs| == |v0| == |v1|
    ensures |ls0| == |ls1| == |cs| && forall r :: 0 <= r < |cs| ==> SharePoint(cs[r], ls0[r], ls1[r], Xor(v0[r], v1[r]))
  {
    ls0, ls1 := [], [];
    while |ls0| < |cs|
      invariant |ls0| == |ls1| <= |cs| && forall r :: 0 <= r < |ls0| ==> SharePoint(cs[r], ls0[r], ls1[r], Xor(v0[r], v1[r]))
    {
      var r := |ls0|;
      assert TreeInv(cs[r], acts[r], 1, ts0[r], ts1[r], owns[r], 0, 0);
      var out0, tags0, out1, tags1 := Outputs(cs[r], ts0[r], ts1[r], v0[r], v1[r], acts[r], owns[r]);
      ls0, ls1 := ls0 + [Leaves(out0, tags0)], ls1 + [Leaves(out1, tags1)];
    }
  }

  /**
   Two runs of `expand` for a batch: for strictly increasing lists of at least two points of the domain, every
   sharing of the active points, all seeds, fillers and values, the outputs of every tree share its value at the
   position of its active point and zero at every other, and the tags share that position. The run uses one OT per
   tree for each level at which some list has neighbours that first differ there, and no others.
   */
  method Expand(prg: Prg, m0: DpfMult.Multiplier, m1: DpfMult.Multiplier, cs: seq<Ctx>, depth: nat, alpha0: seq<nat>, alpha1: seq<nat>,
                s0: seq<(Block, Block)>, s1: seq<(Block, Block)>, fill0: (nat, nat) -> (Block, Block), fill1: (nat, nat) -> (Block, Block),
                v0: seq<Block>, v1: seq<Block>)
    returns (ls0: seq<Leaves>, ls1: seq<Leaves>)
    requires m0 != m1 && DpfMult.Correlated(m0, m1) && m0.otIdx + |cs| * depth <= m0.totalMults
    requires SameDepth(cs, depth) && (forall r :: 0 <= r < |cs| ==> Listed(cs[r])) && AllShares(cs, alpha0, alpha1)
    requires |cs| == |s0| == |s1| == |v0| == |v1|
    modifies m0`otIdx, m1`otIdx
    ensures DpfMult.Correlated(m0, m1) && m0.otIdx == old(m0.otIdx) + |cs| * SplitLevels(cs, 0, depth)
    ensures |ls0| == |ls1| == |cs| && forall r :: 0 <= r < |cs| ==> SharePoint(cs[r], ls0[r], ls1[r], Xor(v0[r], v1[r]))
  {
    var ts0, ts1;
    ghost var acts, owns;
    ts0, ts1, acts, owns := StartAll(cs, s0, s1, depth);
    ts0, ts1, acts, owns := Levels(prg, m0, m1, cs, ts0, ts1, depth, alpha0, alpha1, fill0, fill1, acts, owns);
    UsedAreSplit(cs, acts, ts0, ts1, owns, 0, depth);
    ls0, ls1 := OutputAll(cs, ts0, ts1, v0, v1, acts, owns);
  }
}
