// 128-bit blocks (`block`, `__m128i`) as bit sequences. Bit 0 is the least
// significant bit, which the tree protocols use as the tag of a seed.
module Blocks {

  function Repeat(t: bool, n: nat): (s: seq<bool>)
    ensures |s| == n
  {
    seq(n, i => t)
  }

  type Bits = s: seq<bool> | |s| == 128 witness Repeat(false, 128)

  datatype Block = Block(bits: Bits)

  const ZERO: Block := Block(Repeat(false, 128))

  function Xor(a: Block, b: Block): Block {
    Block(seq(128, i requires 0 <= i < 128 => a.bits[i] != b.bits[i]))
  }

  function And(a: Block, b: Block): Block {
    Block(seq(128, i requires 0 <= i < 128 => a.bits[i] && b.bits[i]))
  }

  /** The block holding `t` in every position (`block::allSame`, `tagBit`). */
  function Saturate(t: bool): Block {
    Block(Repeat(t, 128))
  }

  predicate Lsb(b: Block) {
    b.bits[0]
  }

  /** `*BitIterator(&b) = t`: overwrite the least significant bit. */
  function WithLsb(b: Block, t: bool): Block {
    Block(b.bits[0 := t])
  }

  /** The block whose only possible set bit is the least significant one. */
  function LowBit(t: bool): Block {
    WithLsb(ZERO, t)
  }

  /** `b` when the tag is set, the zero block otherwise. */
  function Mask(t: bool, b: Block): Block {
    if t then b else ZERO
  }

  /** All block operations, bit by bit. */
  lemma BitLaws()
    ensures forall a, b, i {:trigger Xor(a, b).bits[i]} :: 0 <= i < 128 ==> Xor(a, b).bits[i] == (a.bits[i] != b.bits[i])
    ensures forall a, b, i {:trigger And(a, b).bits[i]} :: 0 <= i < 128 ==> And(a, b).bits[i] == (a.bits[i] && b.bits[i])
    ensures forall t, i {:trigger Saturate(t).bits[i]} :: 0 <= i < 128 ==> Saturate(t).bits[i] == t
    ensures forall i {:trigger ZERO.bits[i]} :: 0 <= i < 128 ==> !ZERO.bits[i]
  {
  }

  lemma Extensional(a: Block, b: Block)
    requires forall i :: 0 <= i < 128 ==> a.bits[i] == b.bits[i]
    ensures a == b
  {
    assert a.bits == b.bits;
  }

  lemma MaskIsAnd(t: bool, b: Block)
    ensures And(Saturate(t), b) == Mask(t, b)
    ensures And(b, Saturate(t)) == Mask(t, b)
  {
    BitLaws();
    Extensional(And(Saturate(t), b), Mask(t, b));
    Extensional(And(b, Saturate(t)), Mask(t, b));
  }

  lemma XorSelf(a: Block)
    ensures Xor(a, a) == ZERO && Xor(a, ZERO) == a && Xor(ZERO, a) == a
  {
    BitLaws();
    Extensional(Xor(a, a), ZERO);
    Extensional(Xor(a, ZERO), a);
    Extensional(Xor(ZERO, a), a);
  }

  lemma XorAssoc(a: Block, b: Block, c: Block)
    ensures Xor(Xor(a, b), c) == Xor(a, Xor(b, c))
  {
    BitLaws();
    Extensional(Xor(Xor(a, b), c), Xor(a, Xor(b, c)));
  }

  lemma XorComm(a: Block, b: Block)
    ensures Xor(a, b) == Xor(b, a)
  {
    BitLaws();
    Extensional(Xor(a, b), Xor(b, a));
  }

  lemma XorSwap(a: Block, b: Block, c: Block, d: Block)
    ensures Xor(Xor(a, b), Xor(c, d)) == Xor(Xor(a, c), Xor(b, d))
  {
    BitLaws();
    Extensional(Xor(Xor(a, b), Xor(c, d)), Xor(Xor(a, c), Xor(b, d)));
  }

  lemma XorCancel(a: Block, b: Block)
    ensures Xor(a, Xor(a, b)) == b
    ensures Xor(a, b) == ZERO ==> a == b
  {
    XorAssoc(a, a, b);
    XorSelf(a);
    XorSelf(b);
  }

  lemma XorLsb(a: Block, b: Block)
    ensures Lsb(Xor(a, b)) == (Lsb(a) != Lsb(b))
  {
  }

  /** A row of blocks, as the matrices of the source hold them. */
  type Row = seq<Block>

  predicate Wide(rows: seq<Row>, n: nat) {
    forall i :: 0 <= i < |rows| ==> |rows[i]| == n
  }

  function XorRow(a: Row, b: Row): (r: Row)
    requires |a| == |b|
    ensures |r| == |a|
  {
    seq(|a|, k requires 0 <= k < |a| => Xor(a[k], b[k]))
  }

  function XorAll(s: seq<Block>): Block {
    if s == [] then ZERO else Xor(XorAll(s[..|s| - 1]), s[|s| - 1])
  }

  lemma XorAllPush(s: seq<Block>, b: Block)
    ensures XorAll(s + [b]) == Xor(XorAll(s), b)
  {
    assert (s + [b])[..|s|] == s;
  }

  lemma {:induction false} XorAllZip(a: seq<Block>, b: seq<Block>, c: seq<Block>)
    requires |a| == |b| == |c|
    requires forall i :: 0 <= i < |a| ==> c[i] == Xor(a[i], b[i])
    ensures XorAll(c) == Xor(XorAll(a), XorAll(b))
  {
    if a == [] {
      XorSelf(ZERO);
    } else {
      var n := |a| - 1;
      XorAllZip(a[..n], b[..n], c[..n]);
      XorSwap(XorAll(a[..n]), XorAll(b[..n]), a[n], b[n]);
    }
  }

  lemma {:induction false} XorAllZero(a: seq<Block>)
    requires forall i :: 0 <= i < |a| ==> a[i] == ZERO
    ensures XorAll(a) == ZERO
  {
    if a != [] {
      XorAllZero(a[..|a| - 1]);
      XorSelf(ZERO);
    }
  }

  /** A sum with one possibly non-zero term is that term. */
  lemma {:induction false} XorAllSingle(a: seq<Block>, k: nat)
    requires k < |a|
    requires forall i :: 0 <= i < |a| && i != k ==> a[i] == ZERO
    ensures XorAll(a) == a[k]
  {
    var n := |a| - 1;
    if k < n {
      XorAllSingle(a[..n], k);
    } else {
      XorAllZero(a[..n]);
    }
    XorSelf(a[k]);
  }

  /** A sum over two parties whose terms agree everywhere but at `p` is the difference at `p`. */
  lemma SumOfTwins(a: seq<Block>, b: seq<Block>, p: nat)
    requires p < |a| == |b|
    requires forall i :: 0 <= i < |a| && i != p ==> a[i] == b[i]
    ensures Xor(XorAll(a), XorAll(b)) == Xor(a[p], b[p])
  {
    var d := seq(|a|, i requires 0 <= i < |a| => Xor(a[i], b[i]));
    XorAllZip(a, b, d);
    forall i | 0 <= i < |a| && i != p ensures d[i] == ZERO {
      XorSelf(a[i]);
    }
    XorAllSingle(d, p);
  }

  lemma CancelOne(a: Block, b: Block, t: bool)
    ensures Xor(a, Mask(t, Xor(a, b))) == Xor(b, Mask(!t, Xor(a, b)))
  {
    BitLaws();
    Extensional(Xor(a, Mask(t, Xor(a, b))), Xor(b, Mask(!t, Xor(a, b))));
  }

  lemma LsbStep(a: Block, b: Block, s: Block, t: bool)
    requires Lsb(s) != Lsb(Xor(a, b))
    ensures Lsb(Xor(a, Mask(t, s))) != Lsb(Xor(b, Mask(!t, s)))
  {
    BitLaws();
  }
}
