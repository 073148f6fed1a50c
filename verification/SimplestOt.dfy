/** Random OT of libOTe/Base/SimplestOT.cpp over an arbitrary group, and chosen-message OT from it. */
module SimplestOt {
  import opened Blocks

  /** Group elements and scalars, in any encoding. */
  type Point = int
  type Scalar = int

  /** `gen(a)` is the a-th multiple of the generator; `hash` is the random oracle and `commit` its use on a seed. */
  datatype Curve = Curve(gen: Scalar -> Point, add: (Point, Point) -> Point, sub: (Point, Point) -> Point, mul: (Point, Scalar) -> Point,
                         hash: (Point, nat, Block) -> Block, commit: Block -> Block)

  function Gen(c: Curve, a: Scalar): Point {
    c.gen(a)
  }

  function Add(c: Curve, x: Point, y: Point): Point {
    c.add(x, y)
  }

  function Sub(c: Curve, x: Point, y: Point): Point {
    c.sub(x, y)
  }

  function Mul(c: Curve, x: Point, a: Scalar): Point {
    c.mul(x, a)
  }

  /** The laws of an abelian group of points with scalar multiplication that the protocol uses. */
  ghost predicate Lawful(c: Curve) {
    && (forall a, b :: Mul(c, Gen(c, a), b) == Mul(c, Gen(c, b), a))
    && (forall x, y, a :: Mul(c, Add(c, x, y), a) == Add(c, Mul(c, x, a), Mul(c, y, a)))
    && (forall x, y :: Sub(c, Add(c, x, y), x) == y)
  }

  /** The receiver's point for OT `i`: blinded by the sender's point when the choice is one. */
  function Blinded(c: Curve, sender: Point, b: Scalar, choice: bool): Point {
    if choice then Add(c, sender, Gen(c, b)) else Gen(c, b)
  }

  function BlindedAll(c: Curve, sender: Point, bs: seq<Scalar>, choices: seq<bool>): (r: seq<Point>)
    requires |bs| == |choices|
    ensures |r| == |bs|
  {
    seq(|bs|, i requires 0 <= i < |bs| => Blinded(c, sender, bs[i], choices[i]))
  }

  /** The sender's two pads for OT `i`. */
  function Pad0(c: Curve, a: Scalar, point: Point, i: nat, seed: Block): Block {
    c.hash(Mul(c, point, a), i, seed)
  }

  function Pad1(c: Curve, a: Scalar, point: Point, i: nat, seed: Block): Block {
    c.hash(Sub(c, Mul(c, point, a), Mul(c, Gen(c, a), a)), i, seed)
  }

  function PadFor(c: Curve, a: Scalar, point: Point, i: nat, seed: Block, choice: bool): Block {
    if choice then Pad1(c, a, point, i, seed) else Pad0(c, a, point, i, seed)
  }

  /** The receiver's pad. */
  function ReceiverPad(c: Curve, sender: Point, b: Scalar, i: nat, seed: Block): Block {
    c.hash(Mul(c, sender, b), i, seed)
  }

  /** The receiver's pad is the sender's pad for its choice. */
  lemma PadsAgree(c: Curve, a: Scalar, b: Scalar, choice: bool, i: nat, seed: Block)
    requires Lawful(c)
    ensures ReceiverPad(c, Gen(c, a), b, i, seed) == PadFor(c, a, Blinded(c, Gen(c, a), b, choice), i, seed, choice)
  {
    assert Mul(c, Gen(c, a), b) == Mul(c, Gen(c, b), a);
    if choice {
      var x, y := Gen(c, a), Gen(c, b);
      assert Mul(c, Add(c, x, y), a) == Add(c, Mul(c, x, a), Mul(c, y, a));
      assert Sub(c, Add(c, Mul(c, x, a), Mul(c, y, a)), Mul(c, x, a)) == Mul(c, y, a);
    }
  }

  // ---------------------------------------------------------------- bit packing

  /** A byte, least significant bit first. */
  type Byte = s: seq<bool> | |s| == 8 witness seq(8, i => false)

  function PackBits(bits: seq<bool>): (r: seq<Byte>)
    ensures |r| == (|bits| + 7) / 8
  {
    seq<Byte>((|bits| + 7) / 8, j requires 0 <= j < (|bits| + 7) / 8 => seq(8, t requires 0 <= t < 8 => 8 * j + t < |bits| && bits[8 * j + t]))
  }

  /** `(bytes[i >> 3] >> (i & 7)) & 1`. */
  predicate BitOf(bytes: seq<Byte>, i: nat)
    requires i / 8 < |bytes|
  {
    bytes[i / 8][i % 8]
  }

  lemma PackedBit(bits: seq<bool>, i: nat)
    requires i < |bits|
    ensures i / 8 < |PackBits(bits)| && BitOf(PackBits(bits), i) == bits[i]
  {
  }

  // ---------------------------------------------------------------- chosen messages

  /** The masked pair for OT `i`: pads are swapped when the receiver's random choice is not its real one. */
  function MaskedPair(pads: (Block, Block), msgs: (Block, Block), eq: bool): (Block, Block) {
    (Xor(msgs.0, if eq then pads.0 else pads.1), Xor(msgs.1, if eq then pads.1 else pads.0))
  }

  /** Whatever the random choice `q` was, the receiver recovers the message of its real choice. */
  lemma ChosenMessage(pads: (Block, Block), msgs: (Block, Block), choice: bool, q: bool)
    ensures var m := MaskedPair(pads, msgs, choice == q);
            Xor(if choice then m.1 else m.0, if q then pads.1 else pads.0) == if choice then msgs.1 else msgs.0
  {
    var m, p := if choice then msgs.1 else msgs.0, if q then pads.1 else pads.0;
    XorAssoc(m, p, p);
    XorSelf(p);
    XorSelf(m);
  }
}
