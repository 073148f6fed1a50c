/** Serialization of DPF keys: mpc/dpf.hpp and `RegularDpfKey` of libOTe. Buffers are bit strings in memory order. */
module KeyBytes {
  import opened Blocks
  import opened Words
  import opened PointDpfKeys

  type Buffer = seq<bool>

  function NumberBits(v: nat, n: nat): (r: Buffer)
    ensures |r| == n
  {
    if n == 0 then [] else [v % 2 == 1] + NumberBits(v / 2, n - 1)
  }

  function NumberOf(bits: Buffer): nat {
    if bits == [] then 0 else (if bits[0] then 1 else 0) + 2 * NumberOf(bits[1..])
  }

  lemma {:induction false} NumberRoundTrip(v: nat, n: nat)
    requires v < Pow2(n)
    ensures NumberOf(NumberBits(v, n)) == v
    decreases n
  {
    if n > 0 {
      NumberRoundTrip(v / 2, n - 1);
      assert NumberBits(v, n)[1..] == NumberBits(v / 2, n - 1);
    }
  }

  lemma Halves(v: nat, p: nat)
    requires p > 0
    ensures v / 2 / p == v / (2 * p)
  {
    var h, q, r := v / 2, v / 2 / p, v / 2 % p;
    assert h == p * q + r && v == 2 * h + v % 2;
    assert v == 2 * p * q + (2 * r + v % 2);
    DivUnique(2 * p, v, q, 2 * r + v % 2);
  }

  /** A number lies in memory least significant bit first. */
  lemma {:induction false} NumberBit(v: nat, n: nat, i: nat)
    requires i < n
    ensures NumberBits(v, n)[i] == (v / Pow2(i) % 2 == 1)
    decreases n
  {
    if i > 0 {
      NumberBit(v / 2, n - 1, i - 1);
      Halves(v, Pow2(i - 1));
    }
  }

  function BlocksBits(bs: seq<Block>): (r: Buffer)
    ensures |r| == 128 * |bs|
  {
    if bs == [] then [] else BlocksBits(bs[..|bs| - 1]) + bs[|bs| - 1].bits
  }

  lemma {:induction false} BlockBit(bs: seq<Block>, i: nat, t: nat)
    requires i < |bs| && t < 128
    ensures BlocksBits(bs)[128 * i + t] == bs[i].bits[t]
    decreases |bs|
  {
    if i < |bs| - 1 {
      BlockBit(bs[..|bs| - 1], i, t);
    }
  }

  /** The blocks stored from `pos` on. */
  ghost predicate BlocksAt(buf: Buffer, pos: nat, bs: seq<Block>) {
    pos + 128 * |bs| <= |buf| && forall i :: 0 <= i < |bs| ==> bs[i].bits == buf[pos + 128 * i..pos + 128 * i + 128]
  }

  /** Reads `count` blocks from `pos` on. */
  method ReadBlocks(buf: Buffer, pos: nat, count: nat) returns (bs: seq<Block>, next: nat)
    requires pos + 128 * count <= |buf|
    ensures |bs| == count && next == pos + 128 * count
    ensures BlocksAt(buf, pos, bs)
  {
    bs, next := [], pos;
    while |bs| < count
      invariant |bs| <= count && next == pos + 128 * |bs|
      invariant forall i :: 0 <= i < |bs| ==> bs[i].bits == buf[pos + 128 * i..pos + 128 * i + 128]
    {
      bs := bs + [Block(buf[next..next + 128])];
      next := next + 128;
    }
  }

  /** The loop that appends blocks to a buffer. */
  method WriteBlocks(buf: Buffer, bs: seq<Block>) returns (r: Buffer)
    ensures r == buf + BlocksBits(bs)
  {
    r := buf;
    var i := 0;
    while i < |bs|
      invariant 0 <= i <= |bs| && r == buf + BlocksBits(bs[..i])
    {
      assert bs[..i + 1][..i] == bs[..i];
      r := r + bs[i].bits;
      i := i + 1;
    }
    assert bs[..i] == bs;
  }

  lemma PartIndex(buf: Buffer, pos: nat, part: Buffer, k: nat)
    requires pos + |part| <= |buf| && buf[pos..pos + |part|] == part && k < |part|
    ensures buf[pos + k] == part[k]
  {
  }

  lemma BlockThere(buf: Buffer, pos: nat, bs: seq<Block>, j: nat)
    requires pos + 128 * |bs| <= |buf| && buf[pos..pos + 128 * |bs|] == BlocksBits(bs) && j < |bs|
    ensures bs[j].bits == buf[pos + 128 * j..pos + 128 * j + 128]
  {
    forall t | 0 <= t < 128 ensures bs[j].bits[t] == buf[pos + (128 * j + t)] {
      BlockBit(bs, j, t);
      PartIndex(buf, pos, BlocksBits(bs), 128 * j + t);
    }
  }

  /** Blocks lie in memory one after the other. */
  lemma BlocksThere(buf: Buffer, pos: nat, bs: seq<Block>)
    requires pos + 128 * |bs| <= |buf| && buf[pos..pos + 128 * |bs|] == BlocksBits(bs)
    ensures BlocksAt(buf, pos, bs)
  {
    forall j | 0 <= j < |bs| ensures bs[j].bits == buf[pos + 128 * j..pos + 128 * j + 128] {
      BlockThere(buf, pos, bs, j);
    }
  }

  lemma OnlyBlocks(buf: Buffer, pos: nat, bs: seq<Block>, got: seq<Block>)
    requires BlocksAt(buf, pos, bs) && BlocksAt(buf, pos, got) && |got| == |bs|
    ensures got == bs
  {
    forall j | 0 <= j < |bs| ensures got[j] == bs[j] {
      assert got[j].bits == buf[pos + 128 * j..pos + 128 * j + 128] == bs[j].bits;
    }
  }

  // ---------------------------------------------------------------- mpc/dpf.hpp

  /** A key and its trivially copyable PRG key. */
  datatype Stored = Stored(key: Key, prgKey: Buffer)

  /** Sizes fit their 64-bit fields. */
  predicate Storable(s: Stored) {
    s.key.nitems < Pow2(64) && |s.key.cw| < Pow2(64)
  }

  function Serialized(s: Stored): Buffer {
    NumberBits(s.key.nitems, 64) + s.key.root.bits + NumberBits(|s.key.cw|, 64) + BlocksBits(s.key.cw) + BlocksBits(s.key.finalizer) + s.prgKey
  }

  method Serialize(s: Stored) returns (buf: Buffer)
    ensures buf == Serialized(s) && |buf| == 256 + 128 * |s.key.cw| + 128 * |s.key.finalizer| + |s.prgKey|
    ensures forall i :: 0 <= i < 64 ==> buf[i] == (s.key.nitems / Pow2(i) % 2 == 1)
    ensures forall i :: 0 <= i < 128 ==> buf[64 + i] == s.key.root.bits[i]
    ensures forall i :: 0 <= i < 64 ==> buf[192 + i] == (|s.key.cw| / Pow2(i) % 2 == 1)
    ensures forall j :: 0 <= j < |s.key.cw| ==> buf[256 + 128 * j..256 + 128 * j + 128] == s.key.cw[j].bits
    ensures var f := 256 + 128 * |s.key.cw|; forall j :: 0 <= j < |s.key.finalizer| ==> buf[f + 128 * j..f + 128 * j + 128] == s.key.finalizer[j].bits
    ensures buf[|buf| - |s.prgKey|..] == s.prgKey
  {
    buf := NumberBits(s.key.nitems, 64) + s.key.root.bits + NumberBits(|s.key.cw|, 64);
    buf := WriteBlocks(buf, s.key.cw);
    buf := WriteBlocks(buf, s.key.finalizer);
    buf := buf + s.prgKey;
    assert buf + [] == buf;
    BitsOfFields(s, []);
  }

  lemma Appended(p: Buffer, piece: Buffer)
    ensures (p + piece)[|p|..|p| + |piece|] == piece
    ensures forall i, j :: 0 <= i <= j <= |p| ==> (p + piece)[i..j] == p[i..j]
  {
  }

  lemma FieldsOf(s: Stored, rest: Buffer)
    ensures var buf := Serialized(s) + rest; var n, f := 128 * |s.key.cw|, 128 * |s.key.finalizer|;
            && |Serialized(s)| == 256 + n + f + |s.prgKey|
            && buf[..64] == NumberBits(s.key.nitems, 64) && buf[64..192] == s.key.root.bits && buf[192..256] == NumberBits(|s.key.cw|, 64)
            && buf[256..256 + n] == BlocksBits(s.key.cw) && buf[256 + n..256 + n + f] == BlocksBits(s.key.finalizer)
            && buf[256 + n + f..256 + n + f + |s.prgKey|] == s.prgKey
  {
    var k := s.key;
    var p1 := NumberBits(k.nitems, 64);
    var p2 := p1 + k.root.bits;
    var p3 := p2 + NumberBits(|k.cw|, 64);
    var p4 := p3 + BlocksBits(k.cw);
    var p5 := p4 + BlocksBits(k.finalizer);
    Appended(p1, k.root.bits);
    Appended(p2, NumberBits(|k.cw|, 64));
    Appended(p3, BlocksBits(k.cw));
    Appended(p4, BlocksBits(k.finalizer));
    Appended(p5, s.prgKey);
    Appended(p5 + s.prgKey, rest);
  }

  /** Bit by bit: numbers least significant bit first, blocks in order. */
  lemma BitsOfFields(s: Stored, rest: Buffer)
    ensures var buf := Serialized(s) + rest;
            && 256 + 128 * |s.key.cw| + 128 * |s.key.finalizer| + |s.prgKey| == |Serialized(s)|
            && (forall i :: 0 <= i < 64 ==> buf[i] == (s.key.nitems / Pow2(i) % 2 == 1))
            && (forall i :: 0 <= i < 128 ==> buf[64 + i] == s.key.root.bits[i])
            && (forall i :: 0 <= i < 64 ==> buf[192 + i] == (|s.key.cw| / Pow2(i) % 2 == 1))
            && BlocksAt(buf, 256, s.key.cw) && BlocksAt(buf, 256 + 128 * |s.key.cw|, s.key.finalizer)
            && buf[|Serialized(s)| - |s.prgKey|..|Serialized(s)|] == s.prgKey
  {
    FieldsOf(s, rest);
    var buf := Serialized(s) + rest;
    forall i | 0 <= i < 64 ensures buf[i] == (s.key.nitems / Pow2(i) % 2 == 1) {
      NumberBit(s.key.nitems, 64, i);
      assert buf[i] == buf[..64][i];
    }
    forall i | 0 <= i < 128 ensures buf[64 + i] == s.key.root.bits[i] {
      assert buf[64 + i] == buf[64..192][i];
    }
    forall i | 0 <= i < 64 ensures buf[192 + i] == (|s.key.cw| / Pow2(i) % 2 == 1) {
      NumberBit(|s.key.cw|, 64, i);
      assert buf[192 + i] == buf[192..256][i];
    }
    BlocksThere(buf, 256, s.key.cw);
    BlocksThere(buf, 256 + 128 * |s.key.cw|, s.key.finalizer);
  }

  lemma HeaderOf(s: Stored, rest: Buffer)
    requires Storable(s)
    ensures var buf := Serialized(s) + rest; var end := 256 + 128 * |s.key.cw| + 128 * |s.key.finalizer|;
            && NumberOf(buf[..64]) == s.key.nitems && Block(buf[64..192]) == s.key.root && NumberOf(buf[192..256]) == |s.key.cw|
            && |Serialized(s)| == end + |s.prgKey| && buf[end..end + |s.prgKey|] == s.prgKey
  {
    FieldsOf(s, rest);
    NumberRoundTrip(s.key.nitems, 64);
    NumberRoundTrip(|s.key.cw|, 64);
  }

  lemma BlocksOf(s: Stored, rest: Buffer, cw: seq<Block>, finalizer: seq<Block>)
    requires |cw| == |s.key.cw| && |finalizer| == |s.key.finalizer|
    requires BlocksAt(Serialized(s) + rest, 256, cw) && BlocksAt(Serialized(s) + rest, 256 + 128 * |cw|, finalizer)
    ensures cw == s.key.cw && finalizer == s.key.finalizer
  {
    BitsOfFields(s, rest);
    OnlyBlocks(Serialized(s) + rest, 256, s.key.cw, cw);
    OnlyBlocks(Serialized(s) + rest, 256 + 128 * |cw|, s.key.finalizer, finalizer);
  }

  /**
   Deserialization for keys with `leafNodes` finalizer nodes and PRG keys of `keyBits` bits: reading back a
   serialized key, whatever follows it, restores every field and consumes exactly the bytes written.
   */
  method Deserialize(buf: Buffer, leafNodes: nat, keyBits: nat, ghost s: Stored, ghost rest: Buffer) returns (r: Stored, used: nat)
    requires Storable(s) && buf == Serialized(s) + rest && |s.key.finalizer| == leafNodes && |s.prgKey| == keyBits
    ensures r == s && used == |Serialized(s)|
  {
    HeaderOf(s, rest);
    var nitems := NumberOf(buf[..64]);
    var root := Block(buf[64..192]);
    var count := NumberOf(buf[192..256]);
    var cw, pos := ReadBlocks(buf, 256, count);
    var finalizer, next := ReadBlocks(buf, pos, leafNodes);
    BlocksOf(s, rest, cw, finalizer);
    r := Stored(Key(nitems, root, cw, finalizer), buf[next..next + keyBits]);
    used := next + keyBits;
  }

  // ---------------------------------------------------------------- RegularDpfKey

  /** The fields of a regular key, matrices row by row; correction bits are bytes. */
  datatype RegularKey = RegularKey(seed: Block, words: seq<Block>, bits: seq<Buffer>, leafVals: seq<Block>)

  predicate Bytewise(bits: seq<Buffer>) {
    forall i :: 0 <= i < |bits| ==> |bits[i]| == 8
  }

  function BytesBits(bs: seq<Buffer>): (r: Buffer)
    requires Bytewise(bs)
    ensures |r| == 8 * |bs|
  {
    if bs == [] then [] else BytesBits(bs[..|bs| - 1]) + bs[|bs| - 1]
  }

  lemma {:induction false} ByteBit(bs: seq<Buffer>, i: nat, t: nat)
    requires Bytewise(bs) && i < |bs| && t < 8
    ensures BytesBits(bs)[8 * i + t] == bs[i][t]
    decreases |bs|
  {
    if i < |bs| - 1 {
      ByteBit(bs[..|bs| - 1], i, t);
    }
  }

  /** `sizeBytes`, in bits. */
  function SizeBits(k: RegularKey): nat {
    128 * (1 + |k.words| + |k.leafVals|) + 8 * |k.bits|
  }

  function ToBytes(k: RegularKey): (r: Buffer)
    requires Bytewise(k.bits)
    ensures |r| == SizeBits(k)
  {
    k.seed.bits + BlocksBits(k.words) + BytesBits(k.bits) + BlocksBits(k.leafVals)
  }

  /** The bytes stored from `pos` on. */
  ghost predicate BytesAt(buf: Buffer, pos: nat, bs: seq<Buffer>) {
    pos + 8 * |bs| <= |buf| && forall i :: 0 <= i < |bs| ==> bs[i] == buf[pos + 8 * i..pos + 8 * i + 8]
  }

  method ReadBytes(buf: Buffer, pos: nat, count: nat) returns (bs: seq<Buffer>)
    requires pos + 8 * count <= |buf|
    ensures |bs| == count && Bytewise(bs) && BytesAt(buf, pos, bs)
  {
    bs := [];
    while |bs| < count
      invariant |bs| <= count && Bytewise(bs) && forall i :: 0 <= i < |bs| ==> bs[i] == buf[pos + 8 * i..pos + 8 * i + 8]
    {
      var at := pos + 8 * |bs|;
      bs := bs + [buf[at..at + 8]];
    }
  }

  lemma RegularFields(k: RegularKey)
    requires Bytewise(k.bits)
    ensures var buf := ToBytes(k); var n, b, l := 128 * |k.words|, 8 * |k.bits|, 128 * |k.leafVals|;
            && buf[..128] == k.seed.bits && buf[128..128 + n] == BlocksBits(k.words)
            && buf[128 + n..128 + n + b] == BytesBits(k.bits) && buf[128 + n + b..128 + n + b + l] == BlocksBits(k.leafVals)
  {
    var p := k.seed.bits + BlocksBits(k.words);
    Appended(k.seed.bits, BlocksBits(k.words));
    Appended(p, BytesBits(k.bits));
    Appended(p + BytesBits(k.bits), BlocksBits(k.leafVals));
  }

  /** Seed, correction words, correction bits and leaf values, each in order. */
  lemma RegularBits(k: RegularKey)
    requires Bytewise(k.bits)
    ensures var buf := ToBytes(k); var at := 128 + 128 * |k.words|; var end := at + 8 * |k.bits|;
            && |buf| == end + 128 * |k.leafVals| && buf[..128] == k.seed.bits
            && (forall j :: 0 <= j < |k.words| ==> buf[128 + 128 * j..128 + 128 * j + 128] == k.words[j].bits)
            && (forall j :: 0 <= j < |k.bits| ==> buf[at + 8 * j..at + 8 * j + 8] == k.bits[j])
            && (forall j :: 0 <= j < |k.leafVals| ==> buf[end + 128 * j..end + 128 * j + 128] == k.leafVals[j].bits)
  {
    RegularFields(k);
    var buf, at := ToBytes(k), 128 + 128 * |k.words|;
    BlocksThere(buf, 128, k.words);
    BlocksThere(buf, at + 8 * |k.bits|, k.leafVals);
    BytesThere(buf, at, k.bits);
  }

  lemma BytesThere(buf: Buffer, pos: nat, bs: seq<Buffer>)
    requires Bytewise(bs) && pos + 8 * |bs| <= |buf| && buf[pos..pos + 8 * |bs|] == BytesBits(bs)
    ensures BytesAt(buf, pos, bs)
  {
    forall j | 0 <= j < |bs| ensures bs[j] == buf[pos + 8 * j..pos + 8 * j + 8] {
      ByteThere(buf, pos, bs, j);
    }
  }

  lemma ByteThere(buf: Buffer, pos: nat, bs: seq<Buffer>, j: nat)
    requires Bytewise(bs) && pos + 8 * |bs| <= |buf| && buf[pos..pos + 8 * |bs|] == BytesBits(bs) && j < |bs|
    ensures buf[pos + 8 * j..pos + 8 * j + 8] == bs[j]
  {
    forall t | 0 <= t < 8 ensures bs[j][t] == buf[pos + (8 * j + t)] {
      ByteBit(bs, j, t);
      PartIndex(buf, pos, BytesBits(bs), 8 * j + t);
    }
  }

  /** `fromBytes` into a key of the given sizes: refused exactly when the size is wrong; it undoes `toBytes`. */
  method FromBytes(buf: Buffer, words: nat, bits: nat, leafVals: nat) returns (ok: bool, k: RegularKey)
    ensures ok == (|buf| == 128 * (1 + words + leafVals) + 8 * bits)
    ensures forall s: RegularKey | Bytewise(s.bits) && |s.words| == words && |s.bits| == bits && |s.leafVals| == leafVals && buf == ToBytes(s) :: ok && k == s
  {
    if |buf| != 128 * (1 + words + leafVals) + 8 * bits {
      return false, RegularKey(ZERO, [], [], []);
    }
    var w, p := ReadBlocks(buf, 128, words);
    var b := ReadBytes(buf, p, bits);
    var v, q := ReadBlocks(buf, p + 8 * bits, leafVals);
    ok, k := true, RegularKey(Block(buf[..128]), w, b, v);
    forall s: RegularKey | Bytewise(s.bits) && |s.words| == words && |s.bits| == bits && |s.leafVals| == leafVals && buf == ToBytes(s)
      ensures k == s
    {
      Restores(buf, k, s);
    }
  }

  lemma Restores(buf: Buffer, k: RegularKey, s: RegularKey)
    requires Bytewise(s.bits) && Bytewise(k.bits) && buf == ToBytes(s)
    requires |k.words| == |s.words| && |k.bits| == |s.bits| && |k.leafVals| == |s.leafVals| && k.seed.bits == buf[..128]
    requires BlocksAt(buf, 128, k.words) && BytesAt(buf, 128 + 128 * |k.words|, k.bits)
    requires BlocksAt(buf, 128 + 128 * |k.words| + 8 * |k.bits|, k.leafVals)
    ensures k == s
  {
    RegularFields(s);
    var at, end := 128 + 128 * |s.words|, 128 + 128 * |s.words| + 8 * |s.bits|;
    BlocksThere(buf, 128, s.words);
    OnlyBlocks(buf, 128, s.words, k.words);
    SameBytes(buf, at, s.bits, k.bits);
    BlocksThere(buf, end, s.leafVals);
    OnlyBlocks(buf, end, s.leafVals, k.leafVals);
  }

  lemma SameBytes(buf: Buffer, pos: nat, bs: seq<Buffer>, got: seq<Buffer>)
    requires Bytewise(bs) && pos + 8 * |bs| <= |buf| && buf[pos..pos + 8 * |bs|] == BytesBits(bs) && |got| == |bs|
    requires BytesAt(buf, pos, got)
    ensures got == bs
  {
    BytesThere(buf, pos, bs);
  }
}
