// Full-domain expansion of regular DPF keys: a key determines a party's levels, and
// expanding both keys of a pair gives shares of the point function.
module RegularExpand {
  import opened Blocks
  import opened Words
  import opened DpfTree
  import opened RegularTree
  import opened RegularRows
  import opened RegularDpf
  import opened RegularKeys
  import opened RegularDealer

  /** The correction words of tree `k`, level by level. */
  function ColumnOfKey(corrs: seq<seq<Correction>>, k: nat): (cs: seq<Correction>)
    requires forall d :: 0 <= d < |corrs| ==> k < |corrs[d]|
    ensures |cs| == |corrs| && forall d :: 0 <= d < |corrs| ==> cs[d] == corrs[d][k]
  {
    seq(|corrs|, d requires 0 <= d < |corrs| => corrs[d][k])
  }

  predicate Rectangular(corrs: seq<seq<Correction>>, n: nat) {
    forall d :: 0 <= d < |corrs| ==> |corrs[d]| == n
  }

  /** Every tree's levels so far come from the key's correction words. */
  ghost predicate RunsSoFar(c: Cipher, runs: seq<Run>, corrs: seq<seq<Correction>>, roots: seq<Level>, f: seq<Level>, iter: nat) {
    && iter > 0 && |runs| == |roots| == |f| && Rectangular(corrs, |runs|)
    && forall k :: 0 <= k < |runs| ==>
         && |runs[k]| == iter && IsRun(c, runs[k], ColumnOfKey(corrs, k))
         && runs[k][0] == roots[k] && runs[k][iter - 1] == f[k]
  }

  ghost function Extend(runs: seq<Run>, f: seq<Level>): (r: seq<Run>)
    requires |runs| == |f|
    ensures |r| == |runs| && forall k :: 0 <= k < |r| ==> r[k] == runs[k] + [f[k]]
  {
    seq(|runs|, k requires 0 <= k < |runs| => runs[k] + [f[k]])
  }

  lemma ExtendRuns(c: Cipher, runs: seq<Run>, corrs: seq<seq<Correction>>, roots: seq<Level>, f: seq<Level>, iter: nat)
    requires RunsSoFar(c, runs, corrs, roots, f, iter) && iter < |corrs| && Sized(f, |runs|)
    ensures RunsSoFar(c, Extend(runs, NextForest(c, f, corrs[iter - 1])), corrs, roots, NextForest(c, f, corrs[iter - 1]), iter + 1)
  {
    var g := NextForest(c, f, corrs[iter - 1]);
    forall k | 0 <= k < |runs| ensures IsRun(c, runs[k] + [g[k]], ColumnOfKey(corrs, k)) {
      ExtendRun(c, runs[k], ColumnOfKey(corrs, k), g[k]);
    }
  }

  /** A party's expansion of tree `k`: `run` is determined by the key, and leaf `i` has its tag and output. */
  ghost predicate TreeExpanded(c: Cipher, run: Run, cs: seq<Correction>, gamma: Block, programmed: bool, out: seq<Row>, tags: seq<Row>, k: nat) {
    && |run| == |cs| > 0 && IsRun(c, run, cs) && |out| <= |tags| <= |LeafSeeds(run, cs)|
    && (forall i :: 0 <= i < |out| ==> k < |out[i]|) && (forall i :: 0 <= i < |tags| ==> k < |tags[i]|)
    && forall i :: 0 <= i < |out| ==>
         && tags[i][k] == Saturate(Lsb(LeafSeeds(run, cs)[i]))
         && out[i][k] == if programmed then Output(c, LeafSeeds(run, cs)[i], gamma) else LeafMask(c, LeafSeeds(run, cs)[i])
  }

  /** Rounds driven by a key instead of interaction. */
  method ExpandLevels(c: Cipher, p: Party, corrs: seq<seq<Correction>>) returns (ghost runs: seq<Run>)
    requires p.Valid() && p.iter == 1 && |corrs| == p.depth && Rectangular(corrs, p.n)
    requires forall k :: 0 <= k < p.n ==> |p.forest[k].tags| == 1
    modifies p, p.s
    ensures p.Valid() && p.iter == p.depth && RunsSoFar(c, runs, corrs, old(p.forest), p.forest, p.depth)
  {
    ghost var roots := p.forest;
    runs := seq(p.n, k requires 0 <= k < p.n => [roots[k]]);
    var iter := 1;
    while iter < p.depth
      invariant 0 < iter == p.iter <= p.depth && p.Valid()
      invariant RunsSoFar(c, runs, corrs, roots, p.forest, iter)
    {
      ExtendRuns(c, runs, corrs, roots, p.forest, iter);
      p.Expand(c, iter, corrs[iter - 1]);
      runs := Extend(runs, p.forest);
      iter := iter + 1;
    }
  }

  /** The outputs of all trees at the leaves below `domain`. */
  method Emit(leaves: LeafRows, gamma: Row, domain: nat, n: nat) returns (out: seq<Row>)
    requires LeafShape(leaves, |leaves.tags|, n) && domain <= |leaves.tags| && (gamma == [] || |gamma| == n)
    ensures |out| == domain && Wide(out, n)
    ensures forall i :: 0 <= i < domain ==> out[i] == if gamma == [] then leaves.masks[i] else OutputRow(leaves.masks[i], leaves.tags[i], gamma)
  {
    out := [];
    var i := 0;
    while i < domain
      invariant 0 <= i <= domain && |out| == i && Wide(out, n)
      invariant forall q :: 0 <= q < i ==>
                  out[q] == if gamma == [] then leaves.masks[q] else OutputRow(leaves.masks[q], leaves.tags[q], gamma)
    {
      out := out + [if gamma == [] then leaves.masks[i] else OutputRow(leaves.masks[i], leaves.tags[i], gamma)];
      i := i + 1;
    }
  }

  lemma EmittedTree(c: Cipher, run: Run, cs: seq<Correction>, leaves: LeafRows, size: nat, gamma: Row, out: seq<Row>, n: nat, k: nat)
    requires |run| == |cs| > 0 && IsRun(c, run, cs) && LeafShape(leaves, size, n) && k < n
    requires TreeLeaves(c, LeafSeeds(run, cs), leaves, size, k) && |out| <= size && Wide(out, n) && (gamma == [] || |gamma| == n)
    requires forall i :: 0 <= i < |out| ==> out[i] == if gamma == [] then leaves.masks[i] else OutputRow(leaves.masks[i], leaves.tags[i], gamma)
    ensures TreeExpanded(c, run, cs, if gamma == [] then ZERO else gamma[k], gamma != [], out, leaves.tags, k)
  {
    var seeds := LeafSeeds(run, cs);
    forall i | 0 <= i < |out| && gamma != [] ensures out[i][k] == Output(c, seeds[i], gamma[k]) {
      MaskIsAnd(Lsb(seeds[i]), gamma[k]);
    }
  }

  datatype ExpandResult = NotExpanded | Expansion(out: seq<Row>, tags: seq<Row>)

  /** The keys `expand` can index: one correction word per level and tree, one or no leaf value per tree. */
  predicate WellFormed(key: Key, depth: nat) {
    && |key.corrs| == depth && depth > 0 && Rectangular(key.corrs, |key.corrs[0]|)
    && (key.leafVals == [] || |key.leafVals| == |key.corrs[0]|)
  }

  /** The expansion of every tree of a key, from these roots. */
  ghost predicate AllExpanded(c: Cipher, key: Key, roots: seq<Level>, runs: seq<Run>, out: seq<Row>, tags: seq<Row>) {
    && |roots| == |runs| && Rectangular(key.corrs, |runs|) && (key.leafVals == [] || |key.leafVals| == |runs|)
    && forall k :: 0 <= k < |runs| ==>
         && TreeExpanded(c, runs[k], ColumnOfKey(key.corrs, k), if key.leafVals == [] then ZERO else key.leafVals[k],
                         key.leafVals != [], out, tags, k)
         && runs[k][0] == roots[k]
  }

  /** `RegularDpf::expand` from a key: every tree is the one the key determines. */
  method ExpandKey(c: Cipher, prng: Prng, party: nat, domain: nat, key: Key) returns (r: ExpandResult, ghost runs: seq<Run>)
    requires 2 <= domain <= Pow2(64) ==> WellFormed(key, Depth(domain))
    ensures r.Expansion? <==> party <= 1 && 2 <= domain <= Pow2(64) && key.corrs[0] != []
    ensures r.Expansion? ==> |r.out| == domain && |runs| == |key.corrs[0]|
    ensures r.Expansion? ==> AllExpanded(c, key, Roots(party == 1, |key.corrs[0]|, key.seed, prng), runs, r.out, r.tags)
  {
    runs := [];
    if party > 1 || domain < 2 || domain > Pow2(64) || |key.corrs[0]| == 0 {
      return NotExpanded, runs;
    }
    var p := new Party(party == 1, |key.corrs[0]|, Depth(domain), key.seed, prng);
    var out, tags;
    out, tags, runs := ExpandFrom(c, p, domain, key);
    r := Expansion(out, tags);
  }

  method ExpandFrom(c: Cipher, p: Party, domain: nat, key: Key) returns (out: seq<Row>, tags: seq<Row>, ghost runs: seq<Run>)
    requires 2 <= domain <= Pow2(64) && WellFormed(key, Depth(domain)) && key.corrs[0] != []
    requires p.Valid() && p.iter == 1 && p.depth == Depth(domain) && p.n == |key.corrs[0]|
    requires forall k :: 0 <= k < p.n ==> |p.forest[k].tags| == 1
    modifies p, p.s
    ensures |out| == domain && |runs| == p.n && AllExpanded(c, key, old(p.forest), runs, out, tags)
  {
    ghost var roots := p.forest;
    runs := ExpandLevels(c, p, key.corrs);
    out, tags := FixAndEmit(c, p, domain, key, runs, roots);
  }

  method FixAndEmit(c: Cipher, p: Party, domain: nat, key: Key, ghost runs: seq<Run>, ghost roots: seq<Level>) returns (out: seq<Row>, tags: seq<Row>)
    requires p.Valid() && p.iter == p.depth == |key.corrs| && p.n == |runs| && 2 <= domain <= RoundUp2(domain) <= Pow2(p.depth)
    requires RunsSoFar(c, runs, key.corrs, roots, p.forest, |key.corrs|) && (key.leafVals == [] || |key.leafVals| == |runs|)
    modifies p.s
    ensures |out| == domain && AllExpanded(c, key, roots, runs, out, tags)
  {
    ghost var f := p.forest;
    var leaves := p.Fix(c, key.corrs[p.depth - 1], RoundUp2(domain));
    out := EmitTrees(c, leaves, key, domain, RoundUp2(domain), runs, roots, f);
    tags := leaves.tags;
  }

  method EmitTrees(c: Cipher, leaves: LeafRows, key: Key, domain: nat, size: nat, ghost runs: seq<Run>, ghost roots: seq<Level>, ghost f: seq<Level>)
    returns (out: seq<Row>)
    requires |key.corrs| > 0 && RunsSoFar(c, runs, key.corrs, roots, f, |key.corrs|) && LeafShape(leaves, size, |runs|)
    requires AllLeaves(c, f, key.corrs[|key.corrs| - 1], leaves, size) && domain <= size
    requires key.leafVals == [] || |key.leafVals| == |runs|
    ensures |out| == domain && AllExpanded(c, key, roots, runs, out, leaves.tags)
  {
    out := Emit(leaves, key.leafVals, domain, |leaves.diff|);
    AllEmitted(c, runs, key, roots, f, leaves, size, out);
  }

  lemma AllEmitted(c: Cipher, runs: seq<Run>, key: Key, roots: seq<Level>, f: seq<Level>, leaves: LeafRows, size: nat, out: seq<Row>)
    requires |key.corrs| > 0 && RunsSoFar(c, runs, key.corrs, roots, f, |key.corrs|) && LeafShape(leaves, size, |runs|)
    requires AllLeaves(c, f, key.corrs[|key.corrs| - 1], leaves, size) && |out| <= size && Wide(out, |runs|)
    requires key.leafVals == [] || |key.leafVals| == |runs|
    requires forall i :: 0 <= i < |out| ==>
               out[i] == if key.leafVals == [] then leaves.masks[i] else OutputRow(leaves.masks[i], leaves.tags[i], key.leafVals)
    ensures AllExpanded(c, key, roots, runs, out, leaves.tags)
  {
    forall k | 0 <= k < |runs|
      ensures TreeExpanded(c, runs[k], ColumnOfKey(key.corrs, k), if key.leafVals == [] then ZERO else key.leafVals[k],
                           key.leafVals != [], out, leaves.tags, k)
    {
      assert LeafSeeds(runs[k], ColumnOfKey(key.corrs, k)) == Corrected(2, f[k], Sigma(key.corrs[|key.corrs| - 1][k]));
      EmittedTree(c, runs[k], ColumnOfKey(key.corrs, k), leaves, size, key.leafVals, out, |runs|, k);
    }
  }

  /** A key determines a party's levels. */
  lemma {:induction false} RunUnique(c: Cipher, run: Run, run': Run, cs: seq<Correction>, d: nat)
    requires IsRun(c, run, cs) && IsRun(c, run', cs) && run[0] == run'[0] && d < |run| && d < |run'|
    ensures run[d] == run'[d]
  {
    if d > 0 {
      RunUnique(c, run, run', cs, d - 1);
      SameStep(c, run, cs, run', cs, d - 1);
    }
  }

  /** What the two parties' outputs for tree `k` have in common: off the point they agree, their tags
      tell the point, and with a value they add up to it. */
  ghost predicate SharePoint(out0: seq<Row>, tags0: seq<Row>, out1: seq<Row>, tags1: seq<Row>, k: nat, point: nat, value: Block, programmed: bool) {
    && |out0| == |out1| <= |tags0| && |out0| <= |tags1|
    && (forall i :: 0 <= i < |out0| ==> k < |out0[i]| && k < |out1[i]| && k < |tags0[i]| && k < |tags1[i]|)
    && (forall i :: 0 <= i < |out0| ==> Xor(tags0[i][k], tags1[i][k]) == Saturate(i == point))
    && (forall i :: 0 <= i < |out0| && i != point ==> out0[i][k] == out1[i][k])
    && (programmed ==> forall i :: 0 <= i < |out0| ==> Xor(out0[i][k], out1[i][k]) == Mask(i == point, value))
  }

  lemma TagsXor(t0: bool, t1: bool)
    ensures Xor(Saturate(t0), Saturate(t1)) == Saturate(t0 != t1)
  {
    BitLaws();
    Extensional(Xor(Saturate(t0), Saturate(t1)), Saturate(t0 != t1));
  }

  /** Expanding a complete tree with its leaf correction shares the point function. The outputs lie among the
      leaves that the correction sums; a point beyond them is no output, and any correction will do. */
  lemma ExpandedTreeShares(c: Cipher, t: TreeRun, alpha: seq<bool>, value: Block, size: nat, gamma: Block, programmed: bool,
                           out0: seq<Row>, tags0: seq<Row>, out1: seq<Row>, tags1: seq<Row>, k: nat)
    requires Complete(c, t, alpha) && |out0| == |out1| <= size && (programmed ==> gamma == GammaBelow(c, t, alpha, size, value))
    requires TreeExpanded(c, t.run0, t.cs, gamma, programmed, out0, tags0, k)
    requires TreeExpanded(c, t.run1, t.cs, gamma, programmed, out1, tags1, k)
    ensures SharePoint(out0, tags0, out1, tags1, k, PathIndex(alpha, |alpha|), value, programmed)
  {
    var s0, s1, p := LeafSeeds(t.run0, t.cs), LeafSeeds(t.run1, t.cs), PathIndex(alpha, |alpha|);
    LeavesDifferAtPoint(c, t.run0, t.run1, alpha, t.cs);
    forall i | 0 <= i < |out0|
      ensures Xor(tags0[i][k], tags1[i][k]) == Saturate(i == p)
      ensures i != p ==> out0[i][k] == out1[i][k]
      ensures programmed ==> Xor(out0[i][k], out1[i][k]) == Mask(i == p, value)
    {
      TagsXor(Lsb(s0[i]), Lsb(s1[i]));
      if p < size {
        OutputsSharePoint(c, s0, s1, p, value, i);
      } else {
        XorSelf(out0[i][k]);
      }
    }
  }
}
