// One leaf of a regular DPF key on its own: the walk from the root to it. Full-domain expansion
// gives at every leaf what its walk gives.
module RegularWalk {
  import opened Blocks
  import opened Words
  import opened DpfTree
  import opened RegularTree
  import opened RegularRows
  import opened RegularDpf
  import opened RegularKeys
  import opened RegularExpand

  /** The seed of child `right` below a corrected seed. */
  function ChildSeed(c: Cipher, s: Block, right: bool): Block {
    if right then c.add64(c.aes(s), s) else c.roundEnc(c.aes(s), s)
  }

  /** A seed corrected under its parent's tag. */
  function CorrectedSeed(s: Block, tag: bool, corr: Correction, right: bool): Block {
    if !tag then s else Xor(s, if right then WithLsb(corr.word, corr.bit) else corr.word)
  }

  /** The corrected seed of node `i` on level `d`: down from the root, whose tag is the party index and whose
      children have the seeds `first`. The tag of a node is the least significant bit of its seed. */
  function Walk(c: Cipher, first: (Block, Block), party: bool, cs: seq<Correction>, d: nat, i: nat): Block
    requires 0 < d <= |cs|
  {
    if d == 1 then CorrectedSeed(if i % 2 == 1 then first.1 else first.0, party, cs[0], i % 2 == 1)
    else
      var parent := Walk(c, first, party, cs, d - 1, i / 2);
      CorrectedSeed(ChildSeed(c, parent, i % 2 == 1), parent.bits[0], cs[d - 1], i % 2 == 1)
  }

  lemma CorrectedNode(l: Level, corr: Correction, i: nat)
    requires Shaped(2, l) && i < 2 * |l.tags|
    ensures i / 2 < |l.tags|
    ensures Corrected(2, l, Sigma(corr))[i] == CorrectedSeed(l.kids[i / 2][i % 2], l.tags[i / 2], corr, i % 2 == 1)
  {
    IndexSplit(2, |l.tags|, i);
    XorSelf(l.kids[i / 2][i % 2]);
  }

  /** The levels of a run hold what the walks give. */
  lemma {:induction false} LevelsByWalk(c: Cipher, run: Run, cs: seq<Correction>, first: (Block, Block), party: bool, d: nat, i: nat)
    requires IsRun(c, run, cs) && 0 < d <= |run| && d <= |cs| && i < Pow2(d) && run[0] == Root(party, first.0, first.1)
    ensures i < |Corrected(2, run[d - 1], Sigma(cs[d - 1]))|
    ensures Corrected(2, run[d - 1], Sigma(cs[d - 1]))[i] == Walk(c, first, party, cs, d, i)
  {
    assert |run[d - 1].tags| == Pow2(d - 1);
    CorrectedNode(run[d - 1], cs[d - 1], i);
    if d > 1 {
      assert StepAt(c, run, cs, d - 2);
      LevelsByWalk(c, run, cs, first, party, d - 1, i / 2);
    }
  }

  /** Leaf `i` of tree `k` has the tag and the output of its walk: its hashed seed, and under its tag the leaf value. */
  ghost predicate LeafByWalk(c: Cipher, prng: Prng, party: nat, key: Key, k: nat, i: nat, out: seq<Row>, tags: seq<Row>)
    requires |key.corrs| > 0 && Rectangular(key.corrs, |key.corrs[0]|) && k < |key.corrs[0]|
    requires key.leafVals == [] || |key.leafVals| == |key.corrs[0]|
  {
    var s := Walk(c, (prng(key.seed, 2 * k), prng(key.seed, 2 * k + 1)), party == 1, ColumnOfKey(key.corrs, k), |key.corrs|, i);
    && i < |out| && i < |tags| && k < |out[i]| && k < |tags[i]|
    && (forall b :: 0 <= b < 128 ==> tags[i][k].bits[b] == s.bits[0])
    && out[i][k] == if key.leafVals != [] && s.bits[0] then Xor(c.roundEnc(s, s), key.leafVals[k]) else c.roundEnc(s, s)
  }

  lemma ExpandedByWalk(c: Cipher, prng: Prng, party: nat, key: Key, runs: seq<Run>, out: seq<Row>, tags: seq<Row>, k: nat, i: nat)
    requires |key.corrs| > 0 && Rectangular(key.corrs, |key.corrs[0]|) && k < |key.corrs[0]| && i < |out|
    requires key.leafVals == [] || |key.leafVals| == |key.corrs[0]|
    requires AllExpanded(c, key, Roots(party == 1, |key.corrs[0]|, key.seed, prng), runs, out, tags)
    ensures LeafByWalk(c, prng, party, key, k, i, out, tags)
  {
    var cs, first := ColumnOfKey(key.corrs, k), (prng(key.seed, 2 * k), prng(key.seed, 2 * k + 1));
    assert TreeExpanded(c, runs[k], cs, if key.leafVals == [] then ZERO else key.leafVals[k], key.leafVals != [], out, tags, k);
    assert runs[k][0] == Root(party == 1, first.0, first.1);
    LevelsByWalk(c, runs[k], cs, first, party == 1, |cs|, i);
    BitLaws();
    var s := Walk(c, first, party == 1, cs, |cs|, i);
    XorSelf(c.roundEnc(s, s));
  }

  /** Expansion from a key, leaf by leaf. */
  method ExpandByWalk(c: Cipher, prng: Prng, party: nat, domain: nat, key: Key) returns (r: ExpandResult)
    requires 2 <= domain <= Pow2(64) ==> WellFormed(key, Depth(domain))
    ensures r.Expansion? <==> party <= 1 && 2 <= domain <= Pow2(64) && key.corrs[0] != []
    ensures r.Expansion? ==> |r.out| == domain
    ensures r.Expansion? ==> forall i, k :: 0 <= i < domain && 0 <= k < |key.corrs[0]| ==> LeafByWalk(c, prng, party, key, k, i, r.out, r.tags)
  {
    ghost var runs;
    r, runs := ExpandKey(c, prng, party, domain, key);
    if r.Expansion? {
      forall i, k | 0 <= i < domain && 0 <= k < |key.corrs[0]| ensures LeafByWalk(c, prng, party, key, k, i, r.out, r.tags) {
        ExpandedByWalk(c, prng, party, key, runs, r.out, r.tags, k, i);
      }
    }
  }
}
