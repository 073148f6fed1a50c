/** The results about the regular DPF as a whole, stated on inputs and outputs only. */
module RegularResults {
  import opened Blocks
  import opened Words
  import opened DpfTree
  import opened RegularTree
  import opened RegularRows
  import opened RegularDpf
  import opened RegularKeys
  import opened RegularDealer
  import opened RegularExpand
  import DpfMult

  /** The leaf a point names: the number in its low `depth` bits. */
  function Leaf(point: Word, depth: nat): nat
    requires depth <= 64
  {
    Value(point, depth)
  }

  lemma LowBit(v: nat, t: bool, p: nat)
    requires v < p
    ensures (v + if t then p else 0) / p % 2 == (if t then 1 else 0) && (v + if t then p else 0) < 2 * p
  {
    DivUnique(p, v + if t then p else 0, if t then 1 else 0, v);
  }

  /** Adding a multiple of `2 * q` leaves the bit of weight `q` alone. */
  lemma BitKept(v: nat, i: nat, m: nat, q: nat)
    requires q > 0 && i == v + q * (2 * m)
    ensures i / q % 2 == v / q % 2
  {
    var d, r := v / q, v % q;
    assert q * (d + 2 * m) == q * d + q * (2 * m);
    DivUnique(q, i, d + 2 * m, r);
  }

  /** The leaf is the number whose bits are the low bits of the point. */
  lemma {:induction false} LeafBits(point: Word, depth: nat, i: nat)
    requires depth <= 64
    ensures Leaf(point, depth) < Pow2(depth)
    ensures i < depth ==> (Leaf(point, depth) / Pow2(i) % 2 == 1) == point[i]
  {
    if depth > 0 {
      var low, p := Leaf(point, depth - 1), Pow2(depth - 1);
      LeafBits(point, depth - 1, i);
      LowBit(low, point[depth - 1], p);
      if i < depth - 1 && point[depth - 1] {
        var k := Pow2(depth - 2 - i);
        Pow2Add(i, depth - 2 - i);
        BitKept(low, low + p, k, Pow2(i));
      }
    }
  }

  lemma LeafIsPath(point: Word, depth: nat)
    requires depth <= 64
    ensures Leaf(point, depth) == PathIndex(PathBits(point, depth), depth)
  {
    PathIsValue(point, depth, depth);
  }

  lemma SameRuns(c: Cipher, run: Run, run': Run, cs: seq<Correction>)
    requires IsRun(c, run, cs) && IsRun(c, run', cs) && run[0] == run'[0] && |run| == |run'|
    ensures run == run'
  {
    forall d | 0 <= d < |run| ensures run[d] == run'[d] {
      RunUnique(c, run, run', cs, d);
    }
  }

  /** What both parties output for tree `k` from a pair of keys. */
  lemma KeyTreeShares(c: Cipher, prng: Prng, alpha: seq<seq<bool>>, values: seq<Block>, size: nat, key0: Key, key1: Key, ts: seq<TreeRun>,
                      runs0: seq<Run>, out0: seq<Row>, tags0: seq<Row>, runs1: seq<Run>, out1: seq<Row>, tags1: seq<Row>, k: nat)
    requires KeysOf(c, prng, alpha, values, size, key0, key1, ts) && k < |ts| && |out0| == |out1| <= size
    requires AllExpanded(c, key0, Roots(false, |ts|, key0.seed, prng), runs0, out0, tags0)
    requires AllExpanded(c, key1, Roots(true, |ts|, key1.seed, prng), runs1, out1, tags1)
    ensures SharePoint(out0, tags0, out1, tags1, k, PathIndex(alpha[k], |alpha[k]|), if values == [] then ZERO else values[k], values != [])
  {
    var t, cs := ts[k], ColumnOfKey(key0.corrs, k);
    assert cs == t.cs;
    SameRuns(c, runs0[k], t.run0, cs);
    SameRuns(c, runs1[k], t.run1, cs);
    var gamma := if values == [] then ZERO else key0.leafVals[k];
    ExpandedTreeShares(c, t, alpha[k], if values == [] then ZERO else values[k], size, gamma, values != [], out0, tags0, out1, tags1, k);
  }

  lemma KeysWellFormed(c: Cipher, prng: Prng, alpha: seq<seq<bool>>, depth: nat, values: seq<Block>, size: nat, key0: Key, key1: Key, ts: seq<TreeRun>)
    requires KeysOf(c, prng, alpha, values, size, key0, key1, ts) && |alpha| > 0 && depth > 0
    requires forall k :: 0 <= k < |alpha| ==> |alpha[k]| == depth
    ensures WellFormed(key0, depth) && WellFormed(key1, depth) && |key0.corrs[0]| == |key1.corrs[0]| == |alpha|
  {
    assert Complete(c, ts[0], alpha[0]) && |ts[0].cs| == |key0.corrs|;
  }

  /** Expanding dealt keys at every leaf of the domain shares the point functions. */
  method DealAndExpand(c: Cipher, prng: Prng, domain: nat, points: seq<Word>, values: seq<Block>, seed0: Block, seed1: Block)
    returns (out0: seq<Row>, tags0: seq<Row>, out1: seq<Row>, tags1: seq<Row>)
    requires 2 <= domain <= Pow2(64) && |points| == |values| > 0
    ensures |out0| == |out1| == domain
    ensures forall k :: 0 <= k < |points| ==> SharePoint(out0, tags0, out1, tags1, k, Leaf(points[k], Depth(domain)), values[k], true)
  {
    var depth := Depth(domain);
    ghost var ts, runs0, runs1;
    var r, r0, r1;
    r, ts := DealerKeyGen(c, prng, domain, points, values, seed0, seed1);
    ghost var alpha := PlainPaths(points[..|values|], depth);
    r0, runs0 := ExpandKey(c, prng, 0, domain, r.key0);
    r1, runs1 := ExpandKey(c, prng, 1, domain, r.key1);
    out0, tags0, out1, tags1 := r0.out, r0.tags, r1.out, r1.tags;
    forall k | 0 <= k < |points| ensures SharePoint(out0, tags0, out1, tags1, k, Leaf(points[k], depth), values[k], true) {
      KeyTreeShares(c, prng, alpha, values, Pow2(depth), r.key0, r.key1, ts, runs0, out0, tags0, runs1, out1, tags1, k);
      LeafIsPath(points[k], depth);
    }
  }

  function XorWords(a: seq<Word>, b: seq<Word>): (r: seq<Word>)
    requires |a| == |b|
    ensures |r| == |a| && forall k :: 0 <= k < |a| ==> r[k] == XorWord(a[k], b[k])
  {
    seq(|a|, k requires 0 <= k < |a| => XorWord(a[k], b[k]))
  }

  /** Inputs of a distributed run with fresh OTs for exactly this many rounds. */
  ghost predicate Prepared(domain: nat, points0: seq<Word>, points1: seq<Word>, values0: seq<Block>, values1: seq<Block>,
                           m0: DpfMult.Multiplier, m1: DpfMult.Multiplier)
    reads m0, m1
  {
    && 2 <= domain <= Pow2(64) && |points0| == |points1| > 0 && |values0| == |values1| && (values0 == [] || |values0| == |points0|)
    && m0 != m1 && DpfMult.Correlated(m0, m1) && m0.otIdx == 0 && m0.totalMults == |points0| * Depth(domain)
  }

  /** Every shared point names a leaf below the domain, rounded up to an even number. */
  ghost predicate PointsBelow(points0: seq<Word>, points1: seq<Word>, domain: nat)
    requires |points0| == |points1| && 2 <= domain <= Pow2(64)
  {
    forall k :: 0 <= k < |points0| ==> Leaf(XorWord(points0[k], points1[k]), Depth(domain)) < RoundUp2(domain)
  }

  lemma SameGammas(c: Cipher, domain: nat, points0: seq<Word>, points1: seq<Word>, ts: seq<TreeRun>)
    requires |points0| == |points1| == |ts| && 2 <= domain <= Pow2(64)
    requires forall k :: 0 <= k < |ts| ==> Complete(c, ts[k], Paths(points0, points1, Depth(domain))[k])
    ensures forall k :: 0 <= k < |ts| ==>
              (SameGamma(c, ts[k], Paths(points0, points1, Depth(domain))[k], RoundUp2(domain), Pow2(Depth(domain))) <==>
               || Leaf(XorWord(points0[k], points1[k]), Depth(domain)) < RoundUp2(domain)
               || MasksMeet(c, ts[k], PathBits(XorWord(points0[k], points1[k]), Depth(domain))))
  {
    forall k | 0 <= k < |ts|
      ensures PathIndex(Paths(points0, points1, Depth(domain))[k], Depth(domain)) == Leaf(XorWord(points0[k], points1[k]), Depth(domain))
    {
      LeafIsPath(XorWord(points0[k], points1[k]), Depth(domain));
    }
  }

  lemma DealtPaths(points0: seq<Word>, points1: seq<Word>, values: seq<Block>, depth: nat)
    requires |points0| == |points1| && (values == [] || |values| == |points0|) && depth <= 64
    ensures PlainPaths(XorWords(points0, points1)[..|values|], depth) == if values == [] then [] else Paths(points0, points1, depth)
  {
    assert values != [] ==> XorWords(points0, points1)[..|values|] == XorWords(points0, points1);
  }

  /** When a pair of distributed keys is the pair dealt for the shared points. */
  lemma KeysAgree(c: Cipher, prng: Prng, domain: nat, points0: seq<Word>, points1: seq<Word>, values: seq<Block>,
                  key0: Key, key1: Key, ts: seq<TreeRun>, key0': Key, key1': Key, ts': seq<TreeRun>)
    requires |points0| == |points1| > 0 && 2 <= domain <= Pow2(64) && key0.seed == key0'.seed && key1.seed == key1'.seed
    requires KeysOf(c, prng, Paths(points0, points1, Depth(domain)), values, RoundUp2(domain), key0, key1, ts)
    requires KeysOf(c, prng, if values == [] then [] else Paths(points0, points1, Depth(domain)), values, Pow2(Depth(domain)), key0', key1', ts')
    requires |key0'.corrs| == Depth(domain)
    ensures (key0 == key0' && key1 == key1') <==> values != [] && forall k :: 0 <= k < |ts| ==>
              || Leaf(XorWord(points0[k], points1[k]), Depth(domain)) < RoundUp2(domain)
              || MasksMeet(c, ts[k], PathBits(XorWord(points0[k], points1[k]), Depth(domain)))
  {
    var alpha := Paths(points0, points1, Depth(domain));
    if values == [] {
      KeysWellFormed(c, prng, alpha, Depth(domain), [], RoundUp2(domain), key0, key1, ts);
      assert key0'.corrs[0] == [];
    } else {
      KeysUnique(c, prng, alpha, values, RoundUp2(domain), key0, key1, ts, Pow2(Depth(domain)), key0', key1', ts');
      SameGammas(c, domain, points0, points1, ts);
    }
  }

  /**
   Distributed and dealer key generation give the same keys exactly if values are supplied and every tree
   either has its point below the rounded domain or has coinciding leaf masks there: the parties sum their masks
   over the rounded domain only, the dealer takes those at the point. `ts` are the runs of the trees, which paths
   and seeds determine. Without values the dealer deals no tree at all.
   */
  method CompareKeyGen(c: Cipher, prng: Prng, domain: nat, points0: seq<Word>, points1: seq<Word>, values0: seq<Block>, values1: seq<Block>,
                       seed0: Block, seed1: Block, m0: DpfMult.Multiplier, m1: DpfMult.Multiplier)
    returns (distributed: KeyGenResult, dealt: KeyGenResult, ghost ts: seq<TreeRun>)
    requires Prepared(domain, points0, points1, values0, values1, m0, m1)
    modifies m0`otIdx, m1`otIdx
    ensures distributed.Keys? && dealt.Keys? && m0.otIdx == m1.otIdx == m0.totalMults
    ensures |ts| == |points0| && StartAt(ts, Roots(false, |ts|, seed0, prng), Roots(true, |ts|, seed1, prng))
    ensures forall k :: 0 <= k < |ts| ==> Complete(c, ts[k], PathBits(XorWord(points0[k], points1[k]), Depth(domain)))
    ensures distributed == dealt <==> values0 != [] && forall k :: 0 <= k < |ts| ==>
              || Leaf(XorWord(points0[k], points1[k]), Depth(domain)) < RoundUp2(domain)
              || MasksMeet(c, ts[k], PathBits(XorWord(points0[k], points1[k]), Depth(domain)))
    ensures values0 != [] && PointsBelow(points0, points1, domain) ==> distributed == dealt
  {
    ghost var ts', alpha, depth := [], Paths(points0, points1, Depth(domain)), Depth(domain);
    var points, values := XorWords(points0, points1), XorRow(values0, values1);
    distributed, ts := DistributedKeyGen(c, prng, domain, |points0|, points0, points1, values0, values1, seed0, seed1, m0, m1);
    dealt, ts' := DealerKeyGen(c, prng, domain, points, values, seed0, seed1);
    DealtPaths(points0, points1, values, depth);
    KeysAgree(c, prng, domain, points0, points1, values, distributed.key0, distributed.key1, ts, dealt.key0, dealt.key1, ts');
  }

  /** A cipher whose leaf masks are the leaf seeds themselves. */
  function PlainCipher(): Cipher {
    Cipher(x => x, (x, k) => x, (x, y) => Xor(x, y))
  }

  lemma PlainMasksDiffer(t: TreeRun, alpha: seq<bool>)
    requires Complete(PlainCipher(), t, alpha)
    ensures !MasksMeet(PlainCipher(), t, alpha)
  {
    LeavesDifferAtPoint(PlainCipher(), t.run0, t.run1, alpha, t.cs);
  }

  lemma DomainOfFive()
    ensures 5 <= Pow2(64) && Depth(5) == 3 && RoundUp2(5) == 6
  {
    assert Pow2(1) == 2 && Pow2(2) == 4 && Pow2(3) == 8;
    Pow2Monotone(3, 64);
    Log2CeilUnique(5, 3);
  }

  /** An input on which distributed and dealer key generation disagree although a value is supplied: a domain of 5
      has depth 3 and is rounded up to 6, and the point 7 lies beyond. */
  method DisagreeBeyondDomain(prng: Prng, value: Block, seed0: Block, seed1: Block, m0: DpfMult.Multiplier, m1: DpfMult.Multiplier)
    returns (distributed: KeyGenResult, dealt: KeyGenResult)
    requires m0 != m1 && DpfMult.Correlated(m0, m1) && m0.otIdx == 0 && m0.totalMults == 3
    modifies m0`otIdx, m1`otIdx
    ensures distributed.Keys? && dealt.Keys? && distributed != dealt
  {
    var seven: Word := seq(64, i => i < 3);
    DomainOfFive();
    SameWord(XorWord(seven, ZeroWord()), seven);
    assert Value(seven, 1) == 1 && Value(seven, 2) == 3 && Value(seven, 3) == 7;
    ghost var ts;
    distributed, dealt, ts := CompareKeyGen(PlainCipher(), prng, 5, [seven], [ZeroWord()], [value], [ZERO], seed0, seed1, m0, m1);
    PlainMasksDiffer(ts[0], PathBits(seven, 3));
  }

  /** Expanding distributed keys at every leaf of the domain shares the point functions; without
      values the outputs still agree exactly off the points. */
  method DistributeAndExpand(c: Cipher, prng: Prng, domain: nat, points0: seq<Word>, points1: seq<Word>, values0: seq<Block>, values1: seq<Block>,
                             seed0: Block, seed1: Block, m0: DpfMult.Multiplier, m1: DpfMult.Multiplier)
    returns (out0: seq<Row>, tags0: seq<Row>, out1: seq<Row>, tags1: seq<Row>)
    requires Prepared(domain, points0, points1, values0, values1, m0, m1)
    modifies m0`otIdx, m1`otIdx
    ensures |out0| == |out1| == domain
    ensures forall k :: 0 <= k < |points0| ==>
              SharePoint(out0, tags0, out1, tags1, k, Leaf(XorWord(points0[k], points1[k]), Depth(domain)),
                         if values0 == [] then ZERO else Xor(values0[k], values1[k]), values0 != [])
  {
    var depth := Depth(domain);
    ghost var ts, runs0, runs1;
    var r, r0, r1;
    r, ts := DistributedKeyGen(c, prng, domain, |points0|, points0, points1, values0, values1, seed0, seed1, m0, m1);
    ghost var alpha := Paths(points0, points1, depth);
    KeysWellFormed(c, prng, alpha, depth, XorRow(values0, values1), RoundUp2(domain), r.key0, r.key1, ts);
    r0, runs0 := ExpandKey(c, prng, 0, domain, r.key0);
    r1, runs1 := ExpandKey(c, prng, 1, domain, r.key1);
    out0, tags0, out1, tags1 := r0.out, r0.tags, r1.out, r1.tags;
    forall k | 0 <= k < |points0|
      ensures SharePoint(out0, tags0, out1, tags1, k, Leaf(XorWord(points0[k], points1[k]), depth),
                         if values0 == [] then ZERO else Xor(values0[k], values1[k]), values0 != [])
    {
      KeyTreeShares(c, prng, alpha, XorRow(values0, values1), RoundUp2(domain), r.key0, r.key1, ts, runs0, out0, tags0, runs1, out1, tags1, k);
      LeafIsPath(XorWord(points0[k], points1[k]), depth);
    }
  }

  lemma InteractiveTreeShares(c: Cipher, ts: seq<TreeRun>, alpha: seq<seq<bool>>, size: nat, l0: LeafRows, l1: LeafRows,
                              values: seq<Block>, gamma: Row, out0: seq<Row>, out1: seq<Row>, k: nat)
    requires LeavesDone(c, ts, alpha, size, l0, l1) && k < |ts| && |out0| == |out1| <= size
    requires Wide(out0, |ts|) && Wide(out1, |ts|) && (gamma == [] <==> values == [])
    requires gamma != [] ==> GammasOf(c, ts, alpha, values, size, gamma)
    requires forall i :: 0 <= i < |out0| ==> out0[i] == if gamma == [] then l0.masks[i] else OutputRow(l0.masks[i], l0.tags[i], gamma)
    requires forall i :: 0 <= i < |out1| ==> out1[i] == if gamma == [] then l1.masks[i] else OutputRow(l1.masks[i], l1.tags[i], gamma)
    ensures SharePoint(out0, l0.tags, out1, l1.tags, k, PathIndex(alpha[k], |alpha[k]|), if values == [] then ZERO else values[k], values != [])
  {
    var t := ts[k];
    EmittedTree(c, t.run0, t.cs, l0, size, gamma, out0, |ts|, k);
    EmittedTree(c, t.run1, t.cs, l1, size, gamma, out1, |ts|, k);
    ExpandedTreeShares(c, t, alpha[k], if values == [] then ZERO else values[k], size, if gamma == [] then ZERO else gamma[k], values != [],
                       out0, l0.tags, out1, l1.tags, k);
  }

  /** Interactive full-domain expansion without keys, both parties. */
  method ExpandInteractively(c: Cipher, prng: Prng, domain: nat, points0: seq<Word>, points1: seq<Word>, values0: seq<Block>, values1: seq<Block>,
                             seed0: Block, seed1: Block, m0: DpfMult.Multiplier, m1: DpfMult.Multiplier)
    returns (out0: seq<Row>, tags0: seq<Row>, out1: seq<Row>, tags1: seq<Row>)
    requires Prepared(domain, points0, points1, values0, values1, m0, m1)
    modifies m0`otIdx, m1`otIdx
    ensures |out0| == |out1| == domain && m0.otIdx == m1.otIdx == m0.totalMults
    ensures forall k :: 0 <= k < |points0| ==>
              SharePoint(out0, tags0, out1, tags1, k, Leaf(XorWord(points0[k], points1[k]), Depth(domain)),
                         if values0 == [] then ZERO else Xor(values0[k], values1[k]), values0 != [])
  {
    var depth, size := Depth(domain), RoundUp2(domain);
    ghost var alpha, values := Paths(points0, points1, depth), XorRow(values0, values1);
    ghost var ts;
    var corrs, l0, l1;
    corrs, l0, l1, ts := RoundsAndLeaves(c, prng, depth, size, points0, points1, seed0, seed1, m0, m1);
    var gamma0, gamma1 := [], [];
    if values0 != [] {
      gamma0, gamma1 := OpenGammas(l0, l1, values0, values1, c, ts, alpha, size);
    }
    out0, out1 := EmitBoth(c, domain, depth, size, points0, points1, l0, l1, values, gamma0, gamma1, ts, alpha);
    tags0, tags1 := l0.tags, l1.tags;
  }

  /** Both parties' output loops, which end with shares of the point functions. */
  method EmitBoth(ghost c: Cipher, domain: nat, ghost depth: nat, ghost size: nat, points0: seq<Word>, points1: seq<Word>, l0: LeafRows, l1: LeafRows,
                  ghost values: seq<Block>, gamma0: Row, gamma1: Row, ghost ts: seq<TreeRun>, ghost alpha: seq<seq<bool>>)
    returns (out0: seq<Row>, out1: seq<Row>)
    requires |points0| == |points1| == |ts| && depth <= 64 && alpha == Paths(points0, points1, depth) && domain <= size
    requires LeavesDone(c, ts, alpha, size, l0, l1) && gamma0 == gamma1 && (gamma0 == [] <==> values == [])
    requires gamma0 != [] ==> GammasOf(c, ts, alpha, values, size, gamma0)
    ensures |out0| == |out1| == domain
    ensures forall k :: 0 <= k < |points0| ==>
              SharePoint(out0, l0.tags, out1, l1.tags, k, Leaf(XorWord(points0[k], points1[k]), depth),
                         if values == [] then ZERO else values[k], values != [])
  {
    out0 := Emit(l0, gamma0, domain, |points0|);
    out1 := Emit(l1, gamma1, domain, |points0|);
    forall k | 0 <= k < |points0|
      ensures SharePoint(out0, l0.tags, out1, l1.tags, k, Leaf(XorWord(points0[k], points1[k]), depth),
                         if values == [] then ZERO else values[k], values != [])
    {
      InteractiveTreeShares(c, ts, alpha, size, l0, l1, values, gamma0, out0, out1, k);
      LeafIsPath(XorWord(points0[k], points1[k]), depth);
    }
  }
}
