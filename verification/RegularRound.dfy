// The interactive part of a round: two parties turn their level sums and shared
// path bits into the correction word both learn.
module RegularRound {
  import opened Blocks
  import opened RegularTree
  import DpfMult

  /** A party's masked contribution to a correction: shares of the word and of the tag bit. */
  function WordShare(party: bool, product: Block, z0: Block, a: bool): Block {
    Xor(Xor(product, z0), LowBit(party != a))
  }

  predicate BitShare(z1: Block, a: bool) {
    Lsb(z1) != a
  }

  function Difference(z0: Block, z1: Block): Block {
    WithLsb(Xor(z0, z1), false)
  }

  /** Opening both parties' shares yields the correction for the joint sums. */
  lemma OpeningIsCorrection(z00: Block, z01: Block, z10: Block, z11: Block, a0: bool, a1: bool, d0: Block, d1: Block)
    requires Xor(d0, d1) == Mask((a0 != false) != (a1 != true), Xor(Difference(z00, z01), Difference(z10, z11)))
    ensures Correction(Xor(WordShare(true, d1, z10, a1), WordShare(false, d0, z00, a0)), BitShare(z11, a1) != BitShare(z01, a0))
            == CorrectionFor(Xor(z00, z10), Xor(z01, z11), a0 != a1)
  {
    var w := Xor(WordShare(true, d1, z10, a1), WordShare(false, d0, z00, a0));
    var e := CorrectionFor(Xor(z00, z10), Xor(z01, z11), a0 != a1);
    BitLaws();
    forall i | 0 <= i < 128 ensures w.bits[i] == e.word.bits[i] {
      assert Xor(d0, d1).bits[i] == (d0.bits[i] != d1.bits[i]);
    }
    Extensional(w, e.word);
  }

  /** Operands of the round's product: the negated path bits and the cleared sum differences. */
  method Operands(party: bool, z0: Row, z1: Row, a: seq<bool>) returns (neg: seq<bool>, diff: array<Block>)
    requires |z0| == |z1| == |a|
    ensures fresh(diff) && |neg| == diff.Length == |a|
    ensures forall k :: 0 <= k < |a| ==> neg[k] == (a[k] != party) && diff[k] == Difference(z0[k], z1[k])
  {
    diff := new Block[|a|](_ => ZERO);
    neg := [];
    var k := 0;
    while k < |a|
      invariant 0 <= k <= |a| && |neg| == k
      invariant forall q :: 0 <= q < k ==> neg[q] == (a[q] != party) && diff[q] == Difference(z0[q], z1[q])
    {
      diff[k] := Xor(z0[k], z1[k]);
      diff[k] := WithLsb(diff[k], false);
      neg := neg + [a[k] != party];
      k := k + 1;
    }
  }

  /** The message that opens a party's shares. */
  method Shares(party: bool, product: Row, z0: Row, z1: Row, a: seq<bool>) returns (words: Row, bits: seq<bool>)
    requires |product| == |z0| == |z1| == |a|
    ensures |words| == |bits| == |a|
    ensures forall k :: 0 <= k < |a| ==> words[k] == WordShare(party, product[k], z0[k], a[k]) && bits[k] == BitShare(z1[k], a[k])
  {
    words, bits := [], [];
    var k := 0;
    while k < |a|
      invariant 0 <= k <= |a| && |words| == |bits| == k
      invariant forall q :: 0 <= q < k ==> words[q] == WordShare(party, product[q], z0[q], a[q]) && bits[q] == BitShare(z1[q], a[q])
    {
      words := words + [Xor(Xor(product[k], z0[k]), LowBit(party != a[k]))];
      bits := bits + [Lsb(z1[k]) != a[k]];
      k := k + 1;
    }
  }

  /** Combines the own and the received shares into correction words. */
  method Open(words: Row, bits: seq<bool>, words': Row, bits': seq<bool>) returns (corr: seq<Correction>)
    requires |words| == |bits| == |words'| == |bits'|
    ensures |corr| == |words|
    ensures forall k :: 0 <= k < |words| ==> corr[k] == Correction(Xor(words'[k], words[k]), bits'[k] != bits[k])
  {
    corr := [];
    var k := 0;
    while k < |words|
      invariant 0 <= k <= |words| && |corr| == k
      invariant forall q :: 0 <= q < k ==> corr[q] == Correction(Xor(words'[q], words[q]), bits'[q] != bits[q])
    {
      corr := corr + [Correction(Xor(words'[k], words[k]), bits'[k] != bits[k])];
      k := k + 1;
    }
  }

  /** Both parties' halves of a round. They end with the same correction words, those of the
      joint sums along the joint path bits, and have used one OT pair per tree. */
  method Round(m0: DpfMult.Multiplier, m1: DpfMult.Multiplier, z00: Row, z01: Row, z10: Row, z11: Row, a0: seq<bool>, a1: seq<bool>)
    returns (ok: bool, corr0: seq<Correction>, corr1: seq<Correction>)
    requires m0 != m1 && DpfMult.Correlated(m0, m1)
    requires |z00| == |z01| == |z10| == |z11| == |a0| == |a1|
    modifies m0`otIdx, m1`otIdx
    ensures ok == (old(m0.otIdx) + |a0| <= m0.totalMults && m0.totalMults > 0)
    ensures ok ==> DpfMult.Correlated(m0, m1) && m0.otIdx == old(m0.otIdx) + |a0|
    ensures ok ==> corr0 == corr1 && |corr0| == |a0|
    ensures ok ==> forall k :: 0 <= k < |a0| ==> corr0[k] == CorrectionFor(Xor(z00[k], z10[k]), Xor(z01[k], z11[k]), a0[k] != a1[k])
  {
    var neg0, diff0 := Operands(false, z00, z01, a0);
    var neg1, diff1 := Operands(true, z10, z11, a1);
    ghost var y0, y1 := diff0[..], diff1[..];
    ok := DpfMult.MultiplyPair(m0, m1, neg0, neg1, diff0, diff1, diff0, diff1);
    corr0, corr1 := [], [];
    if !ok {
      return;
    }
    var d0, d1 := diff0[..], diff1[..];
    var words0, bits0 := Shares(false, d0, z00, z01, a0);
    var words1, bits1 := Shares(true, d1, z10, z11, a1);
    corr0 := Open(words0, bits0, words1, bits1);
    corr1 := Open(words1, bits1, words0, bits0);
    forall k | 0 <= k < |a0|
      ensures corr0[k] == corr1[k] == CorrectionFor(Xor(z00[k], z10[k]), Xor(z01[k], z11[k]), a0[k] != a1[k])
    {
      XorComm(words0[k], words1[k]);
      assert Xor(d0[k], d1[k]) == Mask(neg0[k] != neg1[k], Xor(y0[k], y1[k]));
      OpeningIsCorrection(z00[k], z01[k], z10[k], z11[k], a0[k], a1[k], d0[k], d1[k]);
    }
  }
}
