/** Two parties' sparse trees: what their entries share while levels are corrected and expanded. */
module SparsePair {
  import opened Blocks
  import opened Words
  import opened SparseTrie
  import opened SparseTree

  /** The listed points, the shared point and the position of the leaf it leads to. */
  datatype Ctx = Ctx(points: seq<nat>, depth: nat, alpha: nat, ia: nat)

  predicate Covers(e: Entry, x: nat) {
    e.lo <= x < e.hi
  }

  /** In every range that contains the leaf, the shared point takes the leaf's side. */
  ghost predicate Follows(c: Ctx) {
    c.ia < |c.points| &&
    forall lo: nat, mid: nat, hi: nat, q: nat :: IsSplit(c.points, lo, mid, hi, q) && lo <= c.ia < hi && q > 0 ==> BitAt(c.alpha, q - 1) == BitAt(c.points[c.ia], q - 1)
  }

  /** A listed point leads to its own leaf. */
  lemma ListedFollows(c: Ctx)
    requires c.ia < |c.points| && c.alpha == c.points[c.ia]
    ensures Follows(c)
  {
  }

  predicate Twins(e0: Entry, e1: Entry) {
    e0.lo == e1.lo && e0.mid == e1.mid && e0.hi == e1.hi && e0.child == e1.child && e0.parent == e1.parent
  }

  function JointZ(t0: Tree, t1: Tree, q: nat): (Block, Block)
    requires q < |t0.z| && q < |t1.z|
  {
    (Xor(t0.z[q].0, t1.z[q].0), Xor(t0.z[q].1, t1.z[q].1))
  }

  /** Before its parent's correction is known, an entry is a twin, or a child of the active entry of the parent's level. */
  predicate Unknown(c: Ctx, act: bool, joint: (Block, Block), e0: Entry, e1: Entry) {
    || (!Covers(e0, c.ia) && e0.seed == e1.seed && e0.tag == e1.tag)
    || (act && e0.parent > 0 && e0.tag != e1.tag && Xor(e0.seed, e1.seed) == Pick(joint, e0.child)
        && (Covers(e0, c.ia) <==> e0.child == BitAt(c.alpha, e0.parent - 1)))
  }

  /** Once it is known, correcting the entry makes it equal, unless it leads to the leaf: then its tags differ. */
  predicate Known(c: Ctx, sigma: Block, tau: (bool, bool), e0: Entry, e1: Entry) {
    if Covers(e0, c.ia) then FixedTag(e0, tau) != FixedTag(e1, tau)
    else FixedSeed(e0, sigma) == FixedSeed(e1, sigma) && FixedTag(e0, tau) == FixedTag(e1, tau)
  }

  /** The correction of a level with joint sums `joint` when the point's bit is `a`. */
  function SigmaFor(joint: (Block, Block), a: bool): Block {
    if a then joint.0 else joint.1
  }

  function TauFor(joint: (Block, Block), a: bool): (bool, bool) {
    (Lsb(joint.0) == a, Lsb(joint.1) != a)
  }

  lemma CorrectionKnows(c: Ctx, act: bool, joint: (Block, Block), e0: Entry, e1: Entry, a: bool)
    requires Twins(e0, e1) && Unknown(c, act, joint, e0, e1) && e0.parent > 0 && a == BitAt(c.alpha, e0.parent - 1)
    ensures Known(c, SigmaFor(joint, a), TauFor(joint, a), e0, e1)
  {
    if !(!Covers(e0, c.ia) && e0.seed == e1.seed && e0.tag == e1.tag) {
      XorLsb(e0.seed, e1.seed);
      CancelOne(e0.seed, e1.seed, e0.tag);
    }
  }

  /** Position `k` of level `m` holds a twin entry of the right shape, which owns exactly its range. */
  ghost predicate EntryOk(c: Ctx, act: seq<bool>, known: nat, t0: Tree, t1: Tree, own: seq<(nat, nat)>, m: nat, k: nat)
    requires Shape(t0, c.depth) && Shape(t1, c.depth) && |act| == c.depth + 1 && |own| == |c.points|
    requires m <= c.depth && k < |t0.levels[m]|
  {
    k < |t1.levels[m]| &&
    var e0, e1 := t0.levels[m][k], t1.levels[m][k];
    && Twins(e0, e1) && IsSplit(c.points, e0.lo, e0.mid, e0.hi, m) && m < e0.parent <= c.depth && t0.used[e0.parent]
    && (if e0.parent >= known then Known(c, t0.sigma[e0.parent], t0.tau[e0.parent], e0, e1)
        else Unknown(c, act[e0.parent], JointZ(t0, t1, e0.parent), e0, e1))
    && (forall x :: e0.lo <= x < e0.hi ==> own[x] == (m, k))
  }

  predicate Pending(t: Tree, depth: nat, level: nat, i: nat, m: nat, k: nat)
    requires Shape(t, depth)
  {
    m <= level <= depth && k < |t.levels[m]| && (m == level ==> i <= k)
  }

  ghost predicate OwnerOk(c: Ctx, t: Tree, own: seq<(nat, nat)>, level: nat, i: nat, x: nat)
    requires Shape(t, c.depth) && x < |own|
  {
    Pending(t, c.depth, level, i, own[x].0, own[x].1) && Covers(t.levels[own[x].0][own[x].1], x)
  }

  ghost predicate Basic(c: Ctx, act: seq<bool>, t0: Tree, t1: Tree, own: seq<(nat, nat)>, level: nat) {
    && Shape(t0, c.depth) && Shape(t1, c.depth) && |act| == c.depth + 1 && |own| == |c.points| && level <= c.depth
    && Increasing(c.points) && Follows(c)
    && t0.sigma == t1.sigma && t0.tau == t1.tau && t0.used == t1.used
    && (forall m :: 0 <= m <= c.depth ==> |t0.levels[m]| == |t1.levels[m]|)
  }

  ghost predicate ActAt(c: Ctx, act: seq<bool>, t0: Tree, t1: Tree, own: seq<(nat, nat)>, q: nat)
    requires Shape(t0, c.depth) && Shape(t1, c.depth) && |act| == c.depth + 1 && c.ia < |own| && q <= c.depth
  {
    if act[q] then own[c.ia].0 < q else JointZ(t0, t1, q) == (ZERO, ZERO)
  }

  /** Uncorrected levels without an active entry have sums that cancel; the active entry's leaf has moved below it. */
  ghost predicate ActOk(c: Ctx, act: seq<bool>, known: nat, t0: Tree, t1: Tree, own: seq<(nat, nat)>)
    requires Shape(t0, c.depth) && Shape(t1, c.depth) && |act| == c.depth + 1 && c.ia < |own|
  {
    forall q :: 0 <= q <= c.depth && q < known ==> ActAt(c, act, t0, t1, own, q)
  }

  /**
   Levels from `known` on are corrected; level `level` is expanded up to entry `i`, lower levels not at all.
   The entries still to be expanded partition the listed points.
   */
  ghost predicate Inv(c: Ctx, act: seq<bool>, known: nat, t0: Tree, t1: Tree, own: seq<(nat, nat)>, level: nat, i: nat) {
    && Basic(c, act, t0, t1, own, level) && ActOk(c, act, known, t0, t1, own)
    && (forall m, k | Pending(t0, c.depth, level, i, m, k) :: EntryOk(c, act, known, t0, t1, own, m, k))
    && (forall x | 0 <= x < |own| :: OwnerOk(c, t0, own, level, i, x))
  }

  // ---------------------------------------------------------------- correcting a level

  function Corrected(t: Tree, d: nat, sigma: Block, tau: (bool, bool)): Tree
    requires d < |t.sigma| == |t.tau|
  {
    t.(sigma := t.sigma[d := sigma], tau := t.tau[d := tau])
  }

  lemma CorrectEntry(c: Ctx, act: seq<bool>, d: nat, t0: Tree, t1: Tree, own: seq<(nat, nat)>, m: nat, k: nat, a: bool)
    requires Shape(t0, c.depth) && Shape(t1, c.depth) && |act| == c.depth + 1 && |own| == |c.points| && m < d <= c.depth && k < |t0.levels[m]|
    requires EntryOk(c, act, d + 1, t0, t1, own, m, k) && a == BitAt(c.alpha, d - 1)
    ensures var s, u := SigmaFor(JointZ(t0, t1, d), a), TauFor(JointZ(t0, t1, d), a);
            EntryOk(c, act, d, Corrected(t0, d, s, u), Corrected(t1, d, s, u), own, m, k)
  {
    var e0, e1 := t0.levels[m][k], t1.levels[m][k];
    if e0.parent == d {
      CorrectionKnows(c, act[d], JointZ(t0, t1, d), e0, e1, a);
    }
  }

  /** Correcting level `d` makes the corrections of its entries' children known. */
  lemma CorrectLevel(c: Ctx, act: seq<bool>, d: nat, t0: Tree, t1: Tree, own: seq<(nat, nat)>, a: bool, s: Block, u: (bool, bool))
    requires 0 < d <= c.depth && Inv(c, act, d + 1, t0, t1, own, d - 1, 0) && a == BitAt(c.alpha, d - 1)
    requires s == SigmaFor(JointZ(t0, t1, d), a) && u == TauFor(JointZ(t0, t1, d), a)
    ensures Inv(c, act, d, Corrected(t0, d, s, u), Corrected(t1, d, s, u), own, d - 1, 0)
  {
    var t0', t1' := Corrected(t0, d, s, u), Corrected(t1, d, s, u);
    forall m, k | Pending(t0', c.depth, d - 1, 0, m, k) ensures EntryOk(c, act, d, t0', t1', own, m, k) {
      assert Pending(t0, c.depth, d - 1, 0, m, k);
      CorrectEntry(c, act, d, t0, t1, own, m, k, a);
    }
    var l := d - 1;
    forall x | 0 <= x < |own| ensures OwnerOk(c, t0', own, l, 0, x) {
      assert OwnerOk(c, t0, own, l, 0, x);
    }
    forall q | 0 <= q <= c.depth && q < d ensures ActAt(c, act, t0', t1', own, q) {
      assert ActAt(c, act, t0, t1, own, q);
    }
  }

  /** The random filler that replaces the sums of a level without entries. */
  function Filled(t: Tree, d: nat, f: (Block, Block)): Tree
    requires d < |t.used| == |t.z|
  {
    if t.used[d] then t else t.(z := t.z[d := f])
  }

  /** Trees that agree outside level `d`, where nothing is filed. */
  ghost predicate SameOff(t: Tree, t': Tree, depth: nat, d: nat) {
    && Shape(t, depth) && Shape(t', depth) && t'.levels == t.levels && t'.used == t.used
    && forall q :: 0 <= q <= depth && q != d ==> t'.z[q] == t.z[q] && t'.sigma[q] == t.sigma[q] && t'.tau[q] == t.tau[q]
  }

  lemma SkipEntry(c: Ctx, act: seq<bool>, d: nat, t0: Tree, t1: Tree, t0': Tree, t1': Tree, own: seq<(nat, nat)>, m: nat, k: nat)
    requires SameOff(t0, t0', c.depth, d) && SameOff(t1, t1', c.depth, d) && |act| == c.depth + 1 && |own| == |c.points|
    requires m < d <= c.depth && k < |t0.levels[m]| && EntryOk(c, act, d + 1, t0, t1, own, m, k) && !t0.used[d]
    ensures EntryOk(c, act, d, t0', t1', own, m, k)
  {
  }

  /** A level without entries may be skipped, and whatever its sums and its correction are changed to does not matter. */
  lemma SkipLevel(c: Ctx, act: seq<bool>, d: nat, t0: Tree, t1: Tree, t0': Tree, t1': Tree, own: seq<(nat, nat)>)
    requires SameOff(t0, t0', c.depth, d) && SameOff(t1, t1', c.depth, d) && 0 < d <= c.depth && !t0.used[d]
    requires Inv(c, act, d + 1, t0, t1, own, d - 1, 0) && t0'.sigma == t1'.sigma && t0'.tau == t1'.tau
    ensures Inv(c, act, d, t0', t1', own, d - 1, 0)
  {
    var l := d - 1;
    forall m: nat, k: nat | Pending(t0', c.depth, l, 0, m, k) ensures EntryOk(c, act, d, t0', t1', own, m, k) {
      assert Pending(t0, c.depth, l, 0, m, k);
      SkipEntry(c, act, d, t0, t1, t0', t1', own, m, k);
    }
    forall x | 0 <= x < |own| ensures OwnerOk(c, t0', own, l, 0, x) {
      assert OwnerOk(c, t0, own, l, 0, x);
    }
    forall q | 0 <= q < d ensures ActAt(c, act, t0', t1', own, q) {
      assert ActAt(c, act, t0, t1, own, q);
    }
  }

  // ---------------------------------------------------------------- expanding an entry

  /** The trees after one entry is expanded, and who owns its points then. */
  datatype Growth = Growth(level: nat, l0: nat, k0: nat, l1: nat, k1: nat, lo: nat, mid: nat, hi: nat)

  function Moved(own: seq<(nat, nat)>, g: Growth): (r: seq<(nat, nat)>)
    ensures |r| == |own|
  {
    seq(|own|, x requires 0 <= x < |own| => if g.lo <= x < g.mid then (g.l0, g.k0) else if g.mid <= x < g.hi then (g.l1, g.k1) else own[x])
  }

  /** `t'` is `t` with two entries filed and sums added; the two trees of a pair grow in the same places. */
  ghost predicate Grows(t: Tree, t': Tree, depth: nat, g: Growth, f0: Entry, f1: Entry) {
    && Shape(t, depth) && Shape(t', depth) && g.level <= depth && g.l0 < g.level && g.l1 < g.level
    && g.k0 == |t.levels[g.l0]| && g.k1 == |t.levels[g.l1]| + (if g.l1 == g.l0 then 1 else 0)
    && t'.sigma == t.sigma && t'.tau == t.tau && t'.used == t.used[g.level := true]
    && (forall q :: 0 <= q <= depth && q != g.level ==> t'.z[q] == t.z[q])
    && t'.z[g.level] == (Xor(t.z[g.level].0, f0.seed), Xor(t.z[g.level].1, f1.seed))
    && (forall m {:trigger t'.levels[m]} :: 0 <= m <= depth ==>
          |t'.levels[m]| == |t.levels[m]| + (if m == g.l0 then 1 else 0) + (if m == g.l1 then 1 else 0))
    && (forall m, k {:trigger t'.levels[m][k]} :: 0 <= m <= depth && 0 <= k < |t.levels[m]| ==> t'.levels[m][k] == t.levels[m][k])
    && g.k0 < |t'.levels[g.l0]| && t'.levels[g.l0][g.k0] == f0 && g.k1 < |t'.levels[g.l1]| && t'.levels[g.l1][g.k1] == f1
  }

  /** Where the children of the entry at `(level, i)` go. */
  function GrowthOf(points: seq<nat>, t: Tree, level: nat, e: Entry, depth: nat): Growth
    requires Shape(t, depth) && Splittable(points, e) && LeftLevel(points, e, level) < level <= depth && RightLevel(points, e, level) < level
  {
    var l0, l1 := LeftLevel(points, e, level), RightLevel(points, e, level);
    Growth(level, l0, |t.levels[l0]|, l1, |t.levels[l1]| + (if l1 == l0 then 1 else 0), e.lo, e.mid, e.hi)
  }

  lemma GrowGrows(prg: Prg, points: seq<nat>, t: Tree, level: nat, e: Entry, s: Block, tag: bool, depth: nat)
    requires Shape(t, depth) && Splittable(points, e) && LeftLevel(points, e, level) < level <= depth && RightLevel(points, e, level) < level
    ensures Grows(t, Grow(prg, points, t, level, e, s, tag, depth), depth, GrowthOf(points, t, level, e, depth),
                  LeftChild(points, e, level, prg(s, 0), tag), RightChild(points, e, level, prg(s, 1), tag))
  {
  }

  /** The children of an expanded pair: equal, or children of the active entry. */
  predicate Offspring(f0: Entry, f1: Entry, hit: bool, level: nat) {
    && Twins(f0, f1) && f0.parent == level
    && (if hit then f0.tag != f1.tag else f0.seed == f1.seed && f0.tag == f1.tag)
  }

  /** Both trees grow in the same place; the entry `(g.level, i)` made room for its children. */
  ghost predicate PairGrows(c: Ctx, act: seq<bool>, t0: Tree, t1: Tree, t0': Tree, t1': Tree, own: seq<(nat, nat)>, g: Growth, i: nat,
                            a0: Entry, a1: Entry, b0: Entry, b1: Entry, hit: bool) {
    && |act| == c.depth + 1 && c.ia < |own| == |c.points|
    && Grows(t0, t0', c.depth, g, a0, b0) && Grows(t1, t1', c.depth, g, a1, b1) && Offspring(a0, a1, hit, g.level) && Offspring(b0, b1, hit, g.level)
    && !a0.child && b0.child && a0.lo == g.lo && a0.hi == g.mid == b0.lo && b0.hi == g.hi && g.lo < g.mid < g.hi <= |own|
    && (hit <==> g.lo <= c.ia < g.hi) && (hit ==> !act[g.level])
    && (forall x :: g.lo <= x < g.hi ==> own[x] == (g.level, i))
  }

  function Acted(act: seq<bool>, level: nat, hit: bool): seq<bool>
    requires level < |act|
  {
    act[level := act[level] || hit]
  }

  lemma XorBoth(a: Block, b: Block, x: Block)
    ensures Xor(Xor(a, x), Xor(b, x)) == Xor(a, b)
  {
    XorSwap(a, x, b, x);
    XorSelf(x);
    XorSelf(Xor(a, b));
  }

  /** Expanding an inactive pair leaves the joint sums alone. */
  lemma JointKept(c: Ctx, act: seq<bool>, t0: Tree, t1: Tree, t0': Tree, t1': Tree, own: seq<(nat, nat)>, g: Growth, i: nat,
                  a0: Entry, a1: Entry, b0: Entry, b1: Entry, hit: bool, q: nat)
    requires PairGrows(c, act, t0, t1, t0', t1', own, g, i, a0, a1, b0, b1, hit) && q <= c.depth && (q == g.level ==> !hit)
    ensures JointZ(t0', t1', q) == JointZ(t0, t1, q)
  {
    if q == g.level {
      XorBoth(t0.z[q].0, t1.z[q].0, a0.seed);
      XorBoth(t0.z[q].1, t1.z[q].1, b0.seed);
    }
  }

  lemma OldEntry(c: Ctx, act: seq<bool>, t0: Tree, t1: Tree, t0': Tree, t1': Tree, own: seq<(nat, nat)>, g: Growth, i: nat,
                 a0: Entry, a1: Entry, b0: Entry, b1: Entry, hit: bool, m: nat, k: nat)
    requires PairGrows(c, act, t0, t1, t0', t1', own, g, i, a0, a1, b0, b1, hit)
    requires m <= c.depth && k < |t0.levels[m]| && (m, k) != (g.level, i) && EntryOk(c, act, g.level + 1, t0, t1, own, m, k)
    ensures k < |t0'.levels[m]| && EntryOk(c, Acted(act, g.level, hit), g.level + 1, t0', t1', Moved(own, g), m, k)
  {
    var e0, e1 := t0.levels[m][k], t1.levels[m][k];
    assert t0'.levels[m][k] == e0 && t1'.levels[m][k] == e1;
    if e0.parent <= g.level {
      if e0.parent != g.level || !hit {
        JointKept(c, act, t0, t1, t0', t1', own, g, i, a0, a1, b0, b1, hit, e0.parent);
      }
    }
    var own' := Moved(own, g);
    forall x | e0.lo <= x < e0.hi ensures own'[x] == (m, k) {
      assert own[x] == (m, k);
    }
  }

  lemma JointOfHit(z0: Block, z1: Block, x0: Block, x1: Block)
    requires Xor(z0, z1) == ZERO
    ensures Xor(Xor(z0, x0), Xor(z1, x1)) == Xor(x0, x1)
  {
    XorSwap(z0, x0, z1, x1);
    XorSelf(Xor(x0, x1));
  }

  /** The children of an expanded pair before the level's correction is known. */
  lemma ChildUnknown(c: Ctx, act: seq<bool>, t0: Tree, t1: Tree, t0': Tree, t1': Tree, own: seq<(nat, nat)>, g: Growth, i: nat,
                     a0: Entry, a1: Entry, b0: Entry, b1: Entry, hit: bool)
    requires PairGrows(c, act, t0, t1, t0', t1', own, g, i, a0, a1, b0, b1, hit) && ActAt(c, act, t0, t1, own, g.level) && g.level > 0
    requires hit ==> (c.ia >= g.mid <==> BitAt(c.alpha, g.level - 1))
    ensures Unknown(c, Acted(act, g.level, hit)[g.level], JointZ(t0', t1', g.level), a0, a1)
    ensures Unknown(c, Acted(act, g.level, hit)[g.level], JointZ(t0', t1', g.level), b0, b1)
  {
    if hit {
      JointOfHit(t0.z[g.level].0, t1.z[g.level].0, a0.seed, a1.seed);
      JointOfHit(t0.z[g.level].1, t1.z[g.level].1, b0.seed, b1.seed);
    }
  }

  /** The filed children are entries of the right shape that own their halves of the range. */
  lemma NewEntries(c: Ctx, act: seq<bool>, t0: Tree, t1: Tree, t0': Tree, t1': Tree, own: seq<(nat, nat)>, g: Growth, i: nat,
                   a0: Entry, a1: Entry, b0: Entry, b1: Entry, hit: bool)
    requires PairGrows(c, act, t0, t1, t0', t1', own, g, i, a0, a1, b0, b1, hit) && ActAt(c, act, t0, t1, own, g.level) && g.level > 0
    requires hit ==> (c.ia >= g.mid <==> BitAt(c.alpha, g.level - 1))
    requires |t0.levels[g.l0]| == |t1.levels[g.l0]| && |t0.levels[g.l1]| == |t1.levels[g.l1]|
    requires IsSplit(c.points, a0.lo, a0.mid, a0.hi, g.l0) && IsSplit(c.points, b0.lo, b0.mid, b0.hi, g.l1)
    ensures EntryOk(c, Acted(act, g.level, hit), g.level + 1, t0', t1', Moved(own, g), g.l0, g.k0)
    ensures EntryOk(c, Acted(act, g.level, hit), g.level + 1, t0', t1', Moved(own, g), g.l1, g.k1)
  {
    ChildUnknown(c, act, t0, t1, t0', t1', own, g, i, a0, a1, b0, b1, hit);
  }

  lemma OwnersMove(c: Ctx, act: seq<bool>, t0: Tree, t1: Tree, t0': Tree, t1': Tree, own: seq<(nat, nat)>, g: Growth, i: nat,
                   a0: Entry, a1: Entry, b0: Entry, b1: Entry, hit: bool, x: nat)
    requires PairGrows(c, act, t0, t1, t0', t1', own, g, i, a0, a1, b0, b1, hit) && x < |own| && OwnerOk(c, t0, own, g.level, i, x)
    requires Covers(t0.levels[own[x].0][own[x].1], x) && i < |t0.levels[g.level]|
    requires t0.levels[g.level][i].lo == g.lo && t0.levels[g.level][i].hi == g.hi
    ensures OwnerOk(c, t0', Moved(own, g), g.level, i + 1, x)
  {
    var o := Moved(own, g)[x];
    if !(g.lo <= x < g.hi) {
      assert t0'.levels[o.0][o.1] == t0.levels[o.0][o.1];
    }
  }

  lemma ActMoves(c: Ctx, act: seq<bool>, t0: Tree, t1: Tree, t0': Tree, t1': Tree, own: seq<(nat, nat)>, g: Growth, i: nat,
                 a0: Entry, a1: Entry, b0: Entry, b1: Entry, hit: bool, q: nat)
    requires PairGrows(c, act, t0, t1, t0', t1', own, g, i, a0, a1, b0, b1, hit) && q <= c.depth && ActAt(c, act, t0, t1, own, q) && c.ia < |own|
    ensures ActAt(c, Acted(act, g.level, hit), t0', t1', Moved(own, g), q)
  {
    if !(q == g.level && hit) {
      JointKept(c, act, t0, t1, t0', t1', own, g, i, a0, a1, b0, b1, hit, q);
    }
  }

  lemma EntryAfter(c: Ctx, act: seq<bool>, t0: Tree, t1: Tree, t0': Tree, t1': Tree, own: seq<(nat, nat)>, g: Growth, i: nat,
                   a0: Entry, a1: Entry, b0: Entry, b1: Entry, hit: bool, m: nat, k: nat)
    requires Inv(c, act, g.level + 1, t0, t1, own, g.level, i) && PairGrows(c, act, t0, t1, t0', t1', own, g, i, a0, a1, b0, b1, hit) && 0 < g.level
    requires EntryOk(c, Acted(act, g.level, hit), g.level + 1, t0', t1', Moved(own, g), g.l0, g.k0)
    requires EntryOk(c, Acted(act, g.level, hit), g.level + 1, t0', t1', Moved(own, g), g.l1, g.k1)
    requires Pending(t0', c.depth, g.level, i + 1, m, k)
    ensures EntryOk(c, Acted(act, g.level, hit), g.level + 1, t0', t1', Moved(own, g), m, k)
  {
    if k < |t0.levels[m]| {
      assert Pending(t0, c.depth, g.level, i, m, k);
      OldEntry(c, act, t0, t1, t0', t1', own, g, i, a0, a1, b0, b1, hit, m, k);
    } else {
      assert |t0'.levels[m]| > |t0.levels[m]|;
      assert (m, k) == (g.l0, g.k0) || (m, k) == (g.l1, g.k1);
    }
  }

  lemma GrowthKeepsInv(c: Ctx, act: seq<bool>, t0: Tree, t1: Tree, t0': Tree, t1': Tree, own: seq<(nat, nat)>, g: Growth, i: nat,
                       a0: Entry, a1: Entry, b0: Entry, b1: Entry, hit: bool)
    requires Inv(c, act, g.level + 1, t0, t1, own, g.level, i) && PairGrows(c, act, t0, t1, t0', t1', own, g, i, a0, a1, b0, b1, hit) && 0 < g.level
    requires i < |t0.levels[g.level]| && t0.levels[g.level][i].lo == g.lo && t0.levels[g.level][i].hi == g.hi
    requires hit ==> (c.ia >= g.mid <==> BitAt(c.alpha, g.level - 1))
    requires IsSplit(c.points, a0.lo, a0.mid, a0.hi, g.l0) && IsSplit(c.points, b0.lo, b0.mid, b0.hi, g.l1)
    ensures Inv(c, Acted(act, g.level, hit), g.level + 1, t0', t1', Moved(own, g), g.level, i + 1)
  {
    var act', own', l, j := Acted(act, g.level, hit), Moved(own, g), g.level, i + 1;
    assert ActAt(c, act, t0, t1, own, g.level);
    NewEntries(c, act, t0, t1, t0', t1', own, g, i, a0, a1, b0, b1, hit);
    forall m: nat, k: nat | Pending(t0', c.depth, l, j, m, k) ensures EntryOk(c, act', l + 1, t0', t1', own', m, k) {
      EntryAfter(c, act, t0, t1, t0', t1', own, g, i, a0, a1, b0, b1, hit, m, k);
    }
    forall x | 0 <= x < |own'| ensures OwnerOk(c, t0', own', l, j, x) {
      assert OwnerOk(c, t0, own, l, i, x);
      OwnersMove(c, act, t0, t1, t0', t1', own, g, i, a0, a1, b0, b1, hit, x);
    }
    forall q | 0 <= q <= c.depth && q < l + 1 ensures ActAt(c, act', t0', t1', own', q) {
      assert ActAt(c, act, t0, t1, own, q);
      ActMoves(c, act, t0, t1, t0', t1', own, g, i, a0, a1, b0, b1, hit, q);
    }
    forall m | 0 <= m <= c.depth ensures |t0'.levels[m]| == |t1'.levels[m]| {
      assert |t0.levels[m]| == |t1.levels[m]|;
    }
  }

  /** The point's bit decides which half of an active range holds the leaf. */
  lemma FollowsHalf(c: Ctx, e: Entry, level: nat)
    requires Follows(c) && level > 0 && IsSplit(c.points, e.lo, e.mid, e.hi, level) && e.lo <= c.ia < e.hi
    ensures c.ia >= e.mid <==> BitAt(c.alpha, level - 1)
  {
  }

  /** A party's tree after expanding the entry at `(level, i)`. */
  ghost predicate ExpandedAt(prg: Prg, c: Ctx, t: Tree, level: nat, i: nat, t': Tree) {
    && Shape(t, c.depth) && 0 < level <= c.depth && i < |t.levels[level]|
    && var e := t.levels[level][i];
    && e.parent <= c.depth && Splittable(c.points, e) && LeftLevel(c.points, e, level) < level && RightLevel(c.points, e, level) < level
    && t' == Grow(prg, c.points, t, level, e, FixedSeed(e, t.sigma[e.parent]), FixedTag(e, t.tau[e.parent]), c.depth)
  }

  /** Corrected known pairs have equal or opposed offspring. */
  lemma OffspringOf(prg: Prg, c: Ctx, e0: Entry, e1: Entry, level: nat, s0: Block, g0: bool, s1: Block, g1: bool)
    requires Twins(e0, e1) && Splittable(c.points, e0) && (if e0.lo <= c.ia < e0.hi then g0 != g1 else s0 == s1 && g0 == g1)
    ensures Offspring(LeftChild(c.points, e0, level, prg(s0, 0), g0), LeftChild(c.points, e1, level, prg(s1, 0), g1), e0.lo <= c.ia < e0.hi, level)
    ensures Offspring(RightChild(c.points, e0, level, prg(s0, 1), g0), RightChild(c.points, e1, level, prg(s1, 1), g1), e0.lo <= c.ia < e0.hi, level)
  {
  }

  /** What the invariant says about the entry that is next. */
  lemma NextEntry(c: Ctx, act: seq<bool>, t0: Tree, t1: Tree, own: seq<(nat, nat)>, level: nat, i: nat)
    requires Shape(t0, c.depth) && 0 < level <= c.depth && i < |t0.levels[level]| && Inv(c, act, level + 1, t0, t1, own, level, i)
    ensures i < |t1.levels[level]| && t0.sigma == t1.sigma && t0.tau == t1.tau
    ensures var e0, e1 := t0.levels[level][i], t1.levels[level][i];
            && Twins(e0, e1) && IsSplit(c.points, e0.lo, e0.mid, e0.hi, level) && e0.parent <= c.depth
            && Known(c, t0.sigma[e0.parent], t0.tau[e0.parent], e0, e1)
            && (e0.lo <= c.ia < e0.hi ==> !act[level])
            && (forall x :: e0.lo <= x < e0.hi ==> own[x] == (level, i))
  {
    assert Pending(t0, c.depth, level, i, level, i);
    assert EntryOk(c, act, level + 1, t0, t1, own, level, i);
    assert ActAt(c, act, t0, t1, own, level);
  }

  lemma GrowthOfTwins(points: seq<nat>, t0: Tree, t1: Tree, level: nat, e0: Entry, e1: Entry, depth: nat)
    requires Shape(t0, depth) && Shape(t1, depth) && Twins(e0, e1) && (forall m :: 0 <= m <= depth ==> |t0.levels[m]| == |t1.levels[m]|)
    requires Splittable(points, e0) && LeftLevel(points, e0, level) < level <= depth && RightLevel(points, e0, level) < level
    ensures GrowthOf(points, t0, level, e0, depth) == GrowthOf(points, t1, level, e1, depth)
  {
  }

  lemma PairGrowsAt(prg: Prg, c: Ctx, act: seq<bool>, t0: Tree, t1: Tree, t0': Tree, t1': Tree, own: seq<(nat, nat)>, level: nat, i: nat)
    returns (g: Growth, a0: Entry, a1: Entry, b0: Entry, b1: Entry, hit: bool)
    requires Inv(c, act, level + 1, t0, t1, own, level, i) && ExpandedAt(prg, c, t0, level, i, t0') && ExpandedAt(prg, c, t1, level, i, t1')
    ensures PairGrows(c, act, t0, t1, t0', t1', own, g, i, a0, a1, b0, b1, hit) && g.level == level
    ensures t0.levels[level][i].lo == g.lo && t0.levels[level][i].mid == g.mid && t0.levels[level][i].hi == g.hi
    ensures IsSplit(c.points, a0.lo, a0.mid, a0.hi, g.l0) && IsSplit(c.points, b0.lo, b0.mid, b0.hi, g.l1)
  {
    NextEntry(c, act, t0, t1, own, level, i);
    var e0, e1 := t0.levels[level][i], t1.levels[level][i];
    var s0, g0 := FixedSeed(e0, t0.sigma[e0.parent]), FixedTag(e0, t0.tau[e0.parent]);
    var s1, g1 := FixedSeed(e1, t1.sigma[e1.parent]), FixedTag(e1, t1.tau[e1.parent]);
    g, hit := GrowthOf(c.points, t0, level, e0, c.depth), e0.lo <= c.ia < e0.hi;
    GrowthOfTwins(c.points, t0, t1, level, e0, e1, c.depth);
    ChildLevels(c.points, e0, level);
    a0, b0 := LeftChild(c.points, e0, level, prg(s0, 0), g0), RightChild(c.points, e0, level, prg(s0, 1), g0);
    a1, b1 := LeftChild(c.points, e1, level, prg(s1, 0), g1), RightChild(c.points, e1, level, prg(s1, 1), g1);
    GrowGrows(prg, c.points, t0, level, e0, s0, g0, c.depth);
    GrowGrows(prg, c.points, t1, level, e1, s1, g1, c.depth);
    OffspringOf(prg, c, e0, e1, level, s0, g0, s1, g1);
  }

  /** Points `x` and `x + 1` first differ just below bit `q`. */
  predicate SplitsHere(points: seq<nat>, x: nat, q: nat) {
    x + 1 < |points| && IsSplit(points, x, x + 1, x + 2, q)
  }

  /** Neighbours that a growth separates are the two points at the split. */
  ghost predicate Separates(points: seq<nat>, own: seq<(nat, nat)>, own': seq<(nat, nat)>, level: nat) {
    |own| == |own'| == |points| &&
    forall x :: 0 <= x < |own| - 1 && own[x] == own[x + 1] && own'[x] != own'[x + 1] ==> SplitsHere(points, x, level)
  }

  lemma NeighboursSplit(points: seq<nat>, lo: nat, mid: nat, hi: nat, level: nat)
    requires IsSplit(points, lo, mid, hi, level) && level > 0
    ensures mid > 0 && SplitsHere(points, mid - 1, level)
  {
  }

  /** Some neighbours among the points first differ just below bit `q`. */
  ghost predicate SplitsAt(points: seq<nat>, q: nat) {
    exists x: nat :: SplitsHere(points, x, q)
  }

  lemma GrowthSeparates(c: Ctx, act: seq<bool>, t0: Tree, t1: Tree, own: seq<(nat, nat)>, level: nat, i: nat, g: Growth)
    requires Inv(c, act, level + 1, t0, t1, own, level, i) && 0 < level <= c.depth && level < |t0.levels| && i < |t0.levels[level]|
    requires t0.levels[level][i].lo == g.lo && t0.levels[level][i].mid == g.mid && t0.levels[level][i].hi == g.hi
    ensures Separates(c.points, own, Moved(own, g), level) && SplitsAt(c.points, level)
  {
    NextEntry(c, act, t0, t1, own, level, i);
    NeighboursSplit(c.points, g.lo, g.mid, g.hi, level);
    var own' := Moved(own, g);
    forall x | 0 <= x < |own| - 1 && own[x] == own[x + 1] && own'[x] != own'[x + 1] ensures SplitsHere(c.points, x, level) {
      assert OwnerOk(c, t0, own, level, i, x) && OwnerOk(c, t0, own, level, i, x + 1);
      assert g.lo <= x < g.hi && g.lo <= x + 1 < g.hi;
      assert x + 1 == g.mid;
    }
  }

  /** Expanding the same entry in both trees keeps the invariant. */
  lemma ExpandPair(prg: Prg, c: Ctx, act: seq<bool>, t0: Tree, t1: Tree, t0': Tree, t1': Tree, own: seq<(nat, nat)>, level: nat, i: nat)
    returns (act': seq<bool>, own': seq<(nat, nat)>)
    requires Inv(c, act, level + 1, t0, t1, own, level, i) && ExpandedAt(prg, c, t0, level, i, t0') && ExpandedAt(prg, c, t1, level, i, t1')
    ensures Inv(c, act', level + 1, t0', t1', own', level, i + 1)
    ensures level < |t0.used| && t0'.used == t0.used[level := true] && Separates(c.points, own, own', level) && SplitsAt(c.points, level)
  {
    var g, a0, a1, b0, b1, hit := PairGrowsAt(prg, c, act, t0, t1, t0', t1', own, level, i);
    NextEntry(c, act, t0, t1, own, level, i);
    if hit {
      FollowsHalf(c, t0.levels[level][i], level);
    }
    act', own' := Acted(act, level, hit), Moved(own, g);
    GrowthKeepsInv(c, act, t0, t1, t0', t1', own, g, i, a0, a1, b0, b1, hit);
    GrowthSeparates(c, act, t0, t1, own, level, i, g);
  }

  /** A level whose entries are all expanded: the next level is next. */
  lemma LevelDone(c: Ctx, act: seq<bool>, known: nat, t0: Tree, t1: Tree, own: seq<(nat, nat)>, level: nat)
    requires 0 < level < |t0.levels| && Inv(c, act, known, t0, t1, own, level, |t0.levels[level]|)
    ensures Inv(c, act, known, t0, t1, own, level - 1, 0)
  {
    var l, n := level - 1, |t0.levels[level]|;
    forall m: nat, k: nat | Pending(t0, c.depth, l, 0, m, k) ensures EntryOk(c, act, known, t0, t1, own, m, k) {
      assert Pending(t0, c.depth, level, n, m, k);
    }
    forall x | 0 <= x < |own| ensures OwnerOk(c, t0, own, l, 0, x) {
      assert OwnerOk(c, t0, own, level, n, x);
    }
  }

  // ---------------------------------------------------------------- used levels

  /** A used level separates these neighbours. */
  ghost predicate UsedFor(points: seq<nat>, used: seq<bool>, x: nat)
    requires x + 1 < |points|
  {
    exists q :: 0 < q < |used| && used[q] && SplitsHere(points, x, q)
  }

  /** Only levels at which neighbours split are used, and neighbours with different owners were split at a used one. */
  ghost predicate UsedOk(points: seq<nat>, used: seq<bool>, own: seq<(nat, nat)>) {
    && |own| == |points| && (forall q :: 0 <= q < |used| && used[q] ==> q > 0 && SplitsAt(points, q))
    && forall x :: 0 <= x < |own| - 1 && own[x] != own[x + 1] ==> UsedFor(points, used, x)
  }

  lemma UsedGrows(points: seq<nat>, used: seq<bool>, own: seq<(nat, nat)>, own': seq<(nat, nat)>, level: nat)
    requires UsedOk(points, used, own) && Separates(points, own, own', level) && SplitsAt(points, level) && 0 < level < |used|
    ensures UsedOk(points, used[level := true], own')
  {
    var used' := used[level := true];
    forall x | 0 <= x < |own| - 1 && own'[x] != own'[x + 1] ensures UsedFor(points, used', x) {
      if own[x] != own[x + 1] {
        assert UsedFor(points, used, x);
        var q :| 0 < q < |used| && used[q] && SplitsHere(points, x, q);
        assert used'[q];
      } else {
        assert used'[level] && SplitsHere(points, x, level);
      }
    }
  }

  /** Two neighbours split at one level only. */
  lemma SplitUnique(points: seq<nat>, x: nat, q: nat, q': nat)
    requires SplitsHere(points, x, q) && SplitsHere(points, x, q')
    ensures q == q'
  {
    if q < q' {
      PrefixUp(points[x], points[x + 1], q, q' - 1);
    } else if q' < q {
      PrefixUp(points[x], points[x + 1], q', q - 1);
    }
  }

  /** Once everything is expanded, a point is owned by the leaf at its position. */
  lemma LeafPosition(c: Ctx, act: seq<bool>, known: nat, t0: Tree, t1: Tree, own: seq<(nat, nat)>, x: nat)
    requires Inv(c, act, known, t0, t1, own, 0, 0) && x < |own|
    ensures own[x].0 == 0 && |t0.levels| > 0 && own[x].1 < |t0.levels[0]| && t0.levels[0][own[x].1].lo == x
  {
    assert OwnerOk(c, t0, own, 0, 0, x);
    var k := own[x].1;
    assert Pending(t0, c.depth, 0, 0, 0, k);
    assert EntryOk(c, act, known, t0, t1, own, 0, k);
  }

  /** Neighbours then have different owners. */
  lemma LeavesApart(c: Ctx, act: seq<bool>, known: nat, t0: Tree, t1: Tree, own: seq<(nat, nat)>, x: nat)
    requires Inv(c, act, known, t0, t1, own, 0, 0) && x + 1 < |own|
    ensures own[x] != own[x + 1]
  {
    LeafPosition(c, act, known, t0, t1, own, x);
    LeafPosition(c, act, known, t0, t1, own, x + 1);
  }

  /** In the end a level is used exactly if some neighbours split at it. */
  lemma UsedIsSplit(c: Ctx, act: seq<bool>, known: nat, t0: Tree, t1: Tree, own: seq<(nat, nat)>, q: nat)
    requires Inv(c, act, known, t0, t1, own, 0, 0) && UsedOk(c.points, t0.used, own) && 0 < q < |t0.used|
    ensures t0.used[q] <==> SplitsAt(c.points, q)
  {
    if SplitsAt(c.points, q) {
      var x: nat :| SplitsHere(c.points, x, q);
      LeavesApart(c, act, known, t0, t1, own, x);
      assert UsedFor(c.points, t0.used, x);
      var q' :| 0 < q' < |t0.used| && t0.used[q'] && SplitsHere(c.points, x, q');
      SplitUnique(c.points, x, q, q');
    }
  }
}
