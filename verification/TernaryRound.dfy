// The interactive part of a ternary round (`TernaryDpf::correctionWord`), for one
// tree: two 1-of-3 OTs, one in each direction, each made from two 1-of-2 OTs.
module TernaryRound {
  import opened Blocks

  /** `expand3`: three pads per key, an arbitrary function. */
  type Pads = (Block, nat) -> Block

  /** Two random OTs: what the sender holds, and what the receiver holds. */
  datatype Keys = Keys(k0: (Block, Block), k1: (Block, Block))
  datatype Chosen = Chosen(r0: Block, r1: Block, c0: bool, c1: bool)

  function Side(pair: (Block, Block), b: bool): Block {
    if b then pair.1 else pair.0
  }

  predicate Correlated(keys: Keys, chosen: Chosen) {
    chosen.r0 == Side(keys.k0, chosen.c0) && chosen.r1 == Side(keys.k1, chosen.c1)
  }

  /** The two bits of a ternary digit. */
  predicate Low(a: nat) {
    a % 2 == 1
  }

  predicate High(a: nat) {
    a / 2 == 1
  }

  /** The receiver's message: its digit's bits, masked with its random choices. */
  function Correct(a: nat, chosen: Chosen): (bool, bool) {
    (Low(a) != chosen.c0, High(a) != chosen.c1)
  }

  /** The sender's key for choice `j`. */
  function KeyFor(keys: Keys, d: (bool, bool), j: nat): Block {
    Xor(Side(keys.k0, Low(j) != d.0), Side(keys.k1, High(j) != d.1))
  }

  /** The receiver holds the key of its digit. */
  lemma KeyOfDigit(keys: Keys, chosen: Chosen, a: nat)
    requires Correlated(keys, chosen)
    ensures KeyFor(keys, Correct(a, chosen), a) == Xor(chosen.r0, chosen.r1)
  {
  }

  /** The sender's own pads: `r` is hidden in the position of its digit. */
  function OwnMask(e: Pads, keys: Keys, d: (bool, bool), a: nat, r: Block, j: nat): Block {
    Xor(e(KeyFor(keys, d, 0), j), Mask(j == a, r))
  }

  /** The message for choice `i > 0`: it moves `r` to the position of the digits' sum. */
  function Offered(e: Pads, keys: Keys, d: (bool, bool), a: nat, r: Block, i: nat, j: nat): Block {
    Xor(Xor(e(KeyFor(keys, d, i), j), OwnMask(e, keys, d, a, r, j)), Mask(j == (i + a) % 3, r))
  }

  /** The sender's loops: its mask, and the messages for choices 1 and 2. */
  method Offer(e: Pads, keys: Keys, d: (bool, bool), a: nat, r: Block) returns (mask: seq<Block>, msgs: seq<seq<Block>>)
    requires a < 3
    ensures |mask| == 3 && forall j :: 0 <= j < 3 ==> mask[j] == OwnMask(e, keys, d, a, r, j)
    ensures |msgs| == 2 && |msgs[0]| == |msgs[1]| == 3
    ensures forall j :: 0 <= j < 3 ==> msgs[0][j] == Offered(e, keys, d, a, r, 1, j) && msgs[1][j] == Offered(e, keys, d, a, r, 2, j)
  {
    var k := [KeyFor(keys, d, 0), KeyFor(keys, d, 1), KeyFor(keys, d, 2)];
    mask := [e(k[0], 0), e(k[0], 1), e(k[0], 2)];
    mask := mask[a := Xor(mask[a], r)];
    forall j | 0 <= j < 3 ensures mask[j] == OwnMask(e, keys, d, a, r, j) {
      XorSelf(e(k[0], j));
    }
    var first := Message(e, k[1], mask, (1 + a) % 3, r);
    var second := Message(e, k[2], mask, (2 + a) % 3, r);
    msgs := [first, second];
  }

  method Message(e: Pads, k: Block, mask: seq<Block>, at: nat, r: Block) returns (m: seq<Block>)
    requires |mask| == 3 && at < 3
    ensures |m| == 3 && forall j :: 0 <= j < 3 ==> m[j] == Xor(Xor(e(k, j), mask[j]), Mask(j == at, r))
  {
    m := [Xor(e(k, 0), mask[0]), Xor(e(k, 1), mask[1]), Xor(e(k, 2), mask[2])];
    forall j | 0 <= j < 3 ensures Xor(m[j], ZERO) == m[j] {
      XorSelf(m[j]);
    }
    m := m[at := Xor(m[at], r)];
  }

  /** What the receiver with digit `a` makes of its key and the messages. */
  function Taken(e: Pads, k: Block, a: nat, msgs: seq<seq<Block>>, j: nat): Block
    requires a < 3 && |msgs| == 2 && |msgs[0]| == |msgs[1]| == 3 && j < 3
  {
    if a == 0 then e(k, j) else Xor(e(k, j), msgs[a - 1][j])
  }

  /** A party's share of the correction: its pads, its own mask and its level sum. */
  method SigmaShare(e: Pads, k: Block, a: nat, mask: seq<Block>, msgs: seq<seq<Block>>, z: seq<Block>) returns (share: seq<Block>)
    requires a < 3 && |msgs| == 2 && |msgs[0]| == |msgs[1]| == 3 && |mask| == |z| == 3
    ensures |share| == 3 && forall j :: 0 <= j < 3 ==> share[j] == Xor(Xor(Taken(e, k, a, msgs, j), mask[j]), z[j])
  {
    share := [Xor(Xor(e(k, 0), mask[0]), z[0]), Xor(Xor(e(k, 1), mask[1]), z[1]), Xor(Xor(e(k, 2), mask[2]), z[2])];
    if a != 0 {
      ghost var before := share;
      share := [Xor(share[0], msgs[a - 1][0]), Xor(share[1], msgs[a - 1][1]), Xor(share[2], msgs[a - 1][2])];
      forall j | 0 <= j < 3 ensures share[j] == Xor(Xor(Taken(e, k, a, msgs, j), mask[j]), z[j]) {
        AddLast(e(k, j), mask[j], z[j], msgs[a - 1][j]);
      }
    }
  }

  lemma AddLast(k: Block, m: Block, z: Block, x: Block)
    ensures Xor(Xor(Xor(k, m), z), x) == Xor(Xor(Xor(k, x), m), z)
  {
    BitLaws();
    Extensional(Xor(Xor(Xor(k, m), z), x), Xor(Xor(Xor(k, x), m), z));
  }

  lemma PadsCancel(p: Block, m: Block, t: Block)
    ensures Xor(Xor(p, Xor(Xor(p, m), t)), m) == t
  {
    BitLaws();
    Extensional(Xor(Xor(p, Xor(Xor(p, m), t)), m), t);
  }

  lemma MaskCancels(p: Block, t: Block)
    ensures Xor(p, Xor(p, t)) == t
  {
    XorCancel(p, t);
  }

  /** A 1-of-3 OT: the receiver's value and the sender's mask differ by `r`, in the position of the digits' sum. */
  lemma OneOfThree(e: Pads, keys: Keys, chosen: Chosen, a: nat, b: nat, r: Block, mask: seq<Block>, msgs: seq<seq<Block>>, j: nat)
    requires Correlated(keys, chosen) && a < 3 && b < 3 && j < 3 && |mask| == 3
    requires |msgs| == 2 && |msgs[0]| == |msgs[1]| == 3
    requires forall i :: 0 <= i < 3 ==> mask[i] == OwnMask(e, keys, Correct(b, chosen), a, r, i)
    requires forall i :: 0 <= i < 3 ==> msgs[0][i] == Offered(e, keys, Correct(b, chosen), a, r, 1, i)
    requires forall i :: 0 <= i < 3 ==> msgs[1][i] == Offered(e, keys, Correct(b, chosen), a, r, 2, i)
    ensures Xor(Taken(e, Xor(chosen.r0, chosen.r1), b, msgs, j), mask[j]) == Mask(j == (a + b) % 3, r)
  {
    KeyOfDigit(keys, chosen, b);
    var p := e(Xor(chosen.r0, chosen.r1), j);
    if b == 0 {
      MaskCancels(p, Mask(j == a, r));
    } else {
      PadsCancel(p, mask[j], Mask(j == (b + a) % 3, r));
    }
  }

  lemma SharesAdd(t0: Block, m0: Block, z0: Block, t1: Block, m1: Block, z1: Block, r0: Block, r1: Block, on: bool)
    requires Xor(t0, m1) == Mask(on, r1) && Xor(t1, m0) == Mask(on, r0)
    ensures Xor(Xor(Xor(t0, m0), z0), Xor(Xor(t1, m1), z1)) == Xor(Xor(z0, z1), Mask(on, Xor(r0, r1)))
  {
    var l, r := Xor(Xor(Xor(t0, m0), z0), Xor(Xor(t1, m1), z1)), Xor(Xor(z0, z1), Mask(on, Xor(r0, r1)));
    BitLaws();
    forall i | 0 <= i < 128 ensures l.bits[i] == r.bits[i] {
      assert Xor(t0, m1).bits[i] == Mask(on, r1).bits[i] && Xor(t1, m0).bits[i] == Mask(on, r0).bits[i];
    }
    Extensional(l, r);
  }

  /** The correction both parties end up with: their joint sums, plus a mask of odd lsb at the sum of their digits. */
  predicate IsSigma(sigma: seq<Block>, z0: seq<Block>, z1: seq<Block>, digit: nat, r: Block) {
    && |sigma| == |z0| == |z1| == 3 && digit < 3 && Lsb(r)
    && forall j :: 0 <= j < 3 ==> sigma[j] == Xor(Xor(z0[j], z1[j]), Mask(j == digit, r))
  }

  /** Both parties' halves of a round. They end with the same correction. */
  method Round(e: Pads, keys0: Keys, chosen0: Chosen, keys1: Keys, chosen1: Chosen, a0: nat, a1: nat,
               z0: seq<Block>, z1: seq<Block>, rand0: Block, rand1: Block)
    returns (sigma0: seq<Block>, sigma1: seq<Block>)
    requires Correlated(keys0, chosen1) && Correlated(keys1, chosen0) && a0 < 3 && a1 < 3 && |z0| == |z1| == 3
    ensures sigma0 == sigma1
    ensures IsSigma(sigma0, z0, z1, (a0 + a1) % 3, Xor(WithLsb(rand0, false), WithLsb(rand1, true)))
  {
    var d0, d1 := Correct(a1, chosen1), Correct(a0, chosen0);
    var r0, r1 := WithLsb(rand0, false), WithLsb(rand1, true);
    var mask0, msgs0 := Offer(e, keys0, d0, a0, r0);
    var mask1, msgs1 := Offer(e, keys1, d1, a1, r1);
    var share0 := SigmaShare(e, Xor(chosen0.r0, chosen0.r1), a0, mask0, msgs1, z0);
    var share1 := SigmaShare(e, Xor(chosen1.r0, chosen1.r1), a1, mask1, msgs0, z1);
    sigma0 := [Xor(share0[0], share1[0]), Xor(share0[1], share1[1]), Xor(share0[2], share1[2])];
    sigma1 := [Xor(share1[0], share0[0]), Xor(share1[1], share0[1]), Xor(share1[2], share0[2])];
    forall j | 0 <= j < 3
      ensures sigma0[j] == sigma1[j] && sigma0[j] == Xor(Xor(z0[j], z1[j]), Mask(j == (a0 + a1) % 3, Xor(r0, r1)))
    {
      XorComm(share0[j], share1[j]);
      OneOfThree(e, keys0, chosen1, a0, a1, r0, mask0, msgs0, j);
      OneOfThree(e, keys1, chosen0, a1, a0, r1, mask1, msgs1, j);
      SharesAdd(Taken(e, Xor(chosen0.r0, chosen0.r1), a0, msgs1, j), mask0[j], z0[j],
                Taken(e, Xor(chosen1.r0, chosen1.r1), a1, msgs0, j), mask1[j], z1[j], r0, r1, j == (a0 + a1) % 3);
    }
    XorLsb(r0, r1);
  }
}
