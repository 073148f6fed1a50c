/** `LinearCode::encode` and `encode_bch511`: table lookups against the GF(2) matrix product. */
module CodeEncode {
  import opened Blocks
  import opened Words
  import opened CodeTable

  /** The sum of the generator rows selected by the first `n` plaintext bits. */
  function Product(g: seq<Row>, bytes: seq<nat>, n: nat, w: nat): Block
    requires n <= 8 * |bytes|
  {
    if n == 0 then ZERO else Xor(Product(g, bytes, n - 1, w), Selected(g, n - 1, w, ByteBit(bytes[(n - 1) / 8], (n - 1) % 8)))
  }

  /** Rows that do not exist contribute nothing: the high bits of the last byte and padding bytes do not matter. */
  lemma {:induction false} ProductBeyond(g: seq<Row>, bytes: seq<nat>, n: nat, w: nat)
    requires |g| <= n <= 8 * |bytes|
    ensures Product(g, bytes, n, w) == Product(g, bytes, |g|, w)
    decreases n
  {
    if n > |g| {
      ProductBeyond(g, bytes, n - 1, w);
      XorSelf(Product(g, bytes, n - 1, w));
    }
  }

  /** Same plaintext bits, same codeword. */
  lemma {:induction false} ProductDependsOnBits(g: seq<Row>, a: seq<nat>, b: seq<nat>, n: nat, w: nat)
    requires n <= 8 * |a| && n <= 8 * |b| && forall m :: 0 <= m < n ==> ByteBit(a[m / 8], m % 8) == ByteBit(b[m / 8], m % 8)
    ensures Product(g, a, n, w) == Product(g, b, n, w)
  {
    if n > 0 {
      ProductDependsOnBits(g, a, b, n - 1, w);
      assert ByteBit(a[(n - 1) / 8], (n - 1) % 8) == ByteBit(b[(n - 1) / 8], (n - 1) % 8);
    }
  }

  lemma SelectedAdds(g: seq<Row>, m: nat, w: nat, s: bool, t: bool)
    ensures Selected(g, m, w, s != t) == Xor(Selected(g, m, w, s), Selected(g, m, w, t))
  {
    XorSelf(Selected(g, m, w, true));
    XorSelf(ZERO);
  }

  /** Encoding is linear over GF(2). */
  lemma {:induction false} ProductAdds(g: seq<Row>, a: seq<nat>, b: seq<nat>, c: seq<nat>, n: nat, w: nat)
    requires n <= 8 * |a| && n <= 8 * |b| && n <= 8 * |c|
    requires forall m :: 0 <= m < n ==> ByteBit(c[m / 8], m % 8) == (ByteBit(a[m / 8], m % 8) != ByteBit(b[m / 8], m % 8))
    ensures Product(g, c, n, w) == Xor(Product(g, a, n, w), Product(g, b, n, w))
  {
    if n == 0 {
      XorSelf(ZERO);
    } else {
      var m := n - 1;
      ProductAdds(g, a, b, c, m, w);
      var s, t := ByteBit(a[m / 8], m % 8), ByteBit(b[m / 8], m % 8);
      assert ByteBit(c[m / 8], m % 8) == (s != t);
      SelectedAdds(g, m, w, s, t);
      XorSwap(Product(g, a, m, w), Product(g, b, m, w), Selected(g, m, w, s), Selected(g, m, w, t));
    }
  }

  /** The sum of the first `n` table lookups. */
  function Lookups(g: seq<Row>, bytes: seq<nat>, n: nat, w: nat): Block
    requires n <= |bytes|
  {
    if n == 0 then ZERO else Xor(Lookups(g, bytes, n - 1, w), ByteSum(g, n - 1, bytes[n - 1], 8, w))
  }

  lemma {:induction false} ByteOfProduct(g: seq<Row>, bytes: seq<nat>, i: nat, n: nat, w: nat)
    requires i < |bytes| && n <= 8
    ensures Product(g, bytes, 8 * i + n, w) == Xor(Product(g, bytes, 8 * i, w), ByteSum(g, i, bytes[i], n, w))
    decreases n
  {
    if n == 0 {
      XorSelf(Product(g, bytes, 8 * i, w));
    } else {
      ByteOfProduct(g, bytes, i, n - 1, w);
      var m := 8 * i + n - 1;
      assert m / 8 == i && m % 8 == n - 1;
      XorAssoc(Product(g, bytes, 8 * i, w), ByteSum(g, i, bytes[i], n - 1, w), Selected(g, m, w, ByteBit(bytes[i], n - 1)));
    }
  }

  /** Byte by byte lookups give the product bit by bit. */
  lemma {:induction false} LookupsAreProduct(g: seq<Row>, bytes: seq<nat>, n: nat, w: nat, m: nat)
    requires n <= |bytes| && m == 8 * n
    ensures Lookups(g, bytes, n, w) == Product(g, bytes, m, w)
  {
    if n > 0 {
      LookupsAreProduct(g, bytes, n - 1, w, m - 8);
      NextByte(g, bytes, n - 1, w, m - 8, m);
    }
  }

  lemma NextByte(g: seq<Row>, bytes: seq<nat>, i: nat, w: nat, m: nat, m': nat)
    requires i < |bytes| && m == 8 * i && m' == 8 * i + 8
    ensures Product(g, bytes, m', w) == Xor(Product(g, bytes, m, w), ByteSum(g, i, bytes[i], 8, w))
  {
    ByteOfProduct(g, bytes, i, 8, w);
  }

  // ---------------------------------------------------------------- accumulating in lanes

  /** Accumulators: several lanes of one codeword each. */
  predicate Lanes(c: seq<Row>, words: nat) {
    |c| > 0 && Wide(c, words)
  }

  function Column(c: seq<Row>, words: nat, w: nat): (r: seq<Block>)
    requires Wide(c, words) && w < words
    ensures |r| == |c|
  {
    seq(|c|, l requires 0 <= l < |c| => c[l][w])
  }

  ghost predicate ColumnHolds(g: seq<Row>, bytes: seq<nat>, c: seq<Row>, words: nat, n: nat, w: nat)
    requires Wide(c, words) && w < words && n <= |bytes|
  {
    XorAll(Column(c, words, w)) == Lookups(g, bytes, n, w)
  }

  /** Together the lanes hold the sum of the first `n` lookups. */
  ghost predicate Holding(g: seq<Row>, bytes: seq<nat>, c: seq<Row>, words: nat, n: nat) {
    && Lanes(c, words) && n <= |bytes|
    && forall w :: 0 <= w < words ==> ColumnHolds(g, bytes, c, words, n, w)
  }

  function Entries(g: seq<Row>, bytes: seq<nat>, i: nat, lanes: nat, w: nat): (r: seq<Block>)
    requires i + lanes <= |bytes|
    ensures |r| == lanes
  {
    seq(lanes, l requires 0 <= l < lanes => ByteSum(g, i + l, bytes[i + l], 8, w))
  }

  lemma {:induction false} MoreLookups(g: seq<Row>, bytes: seq<nat>, i: nat, lanes: nat, w: nat)
    requires i + lanes <= |bytes|
    ensures Lookups(g, bytes, i + lanes, w) == Xor(Lookups(g, bytes, i, w), XorAll(Entries(g, bytes, i, lanes, w)))
    decreases lanes
  {
    if lanes == 0 {
      XorSelf(Lookups(g, bytes, i, w));
    } else {
      var last := ByteSum(g, i + lanes - 1, bytes[i + lanes - 1], 8, w);
      MoreLookups(g, bytes, i, lanes - 1, w);
      XorAllPush(Entries(g, bytes, i, lanes - 1, w), last);
      assert Entries(g, bytes, i, lanes, w) == Entries(g, bytes, i, lanes - 1, w) + [last];
      XorAssoc(Lookups(g, bytes, i, w), XorAll(Entries(g, bytes, i, lanes - 1, w)), last);
    }
  }

  ghost predicate Stepped(g: seq<Row>, bytes: seq<nat>, c: seq<Row>, c': seq<Row>, words: nat, i: nat) {
    && |c'| == |c| && Wide(c, words) && Wide(c', words) && i + |c| <= |bytes|
    && forall l :: 0 <= l < |c| ==> c'[l] == XorRow(c[l], TableRow(g, words, i + l, bytes[i + l], 8))
  }

  /** One step adds one lookup to every lane. */
  lemma StepHolds(g: seq<Row>, bytes: seq<nat>, c: seq<Row>, c': seq<Row>, words: nat, i: nat, n: nat)
    requires Holding(g, bytes, c, words, i) && Stepped(g, bytes, c, c', words, i) && n == i + |c|
    ensures Holding(g, bytes, c', words, n)
  {
    forall w | 0 <= w < words ensures ColumnHolds(g, bytes, c', words, n, w) {
      assert ColumnHolds(g, bytes, c, words, i, w);
      ColumnStep(g, bytes, c, c', words, i, w);
      MoreLookups(g, bytes, i, |c|, w);
    }
  }

  /** Lane by lane, `a'` has one more lookup of word `w` than `a`. */
  ghost predicate Adds(g: seq<Row>, bytes: seq<nat>, a: seq<Block>, a': seq<Block>, i: nat, w: nat) {
    |a'| == |a| && i + |a| <= |bytes| && forall l :: 0 <= l < |a| ==> a'[l] == Xor(a[l], Entries(g, bytes, i, |a|, w)[l])
  }

  lemma StepColumn(g: seq<Row>, bytes: seq<nat>, c: seq<Row>, c': seq<Row>, words: nat, i: nat, w: nat)
    requires Stepped(g, bytes, c, c', words, i) && w < words
    ensures Adds(g, bytes, Column(c, words, w), Column(c', words, w), i, w)
  {
  }

  /** The sum of a column grows by the sum of the looked-up entries. */
  lemma ColumnStep(g: seq<Row>, bytes: seq<nat>, c: seq<Row>, c': seq<Row>, words: nat, i: nat, w: nat)
    requires Stepped(g, bytes, c, c', words, i) && w < words
    ensures XorAll(Column(c', words, w)) == Xor(XorAll(Column(c, words, w)), XorAll(Entries(g, bytes, i, |c|, w)))
  {
    StepColumn(g, bytes, c, c', words, i, w);
    SumsAdd(Column(c, words, w), Entries(g, bytes, i, |c|, w), Column(c', words, w));
  }

  lemma ColumnSum(g: seq<Row>, bytes: seq<nat>, a: seq<Block>, a': seq<Block>, i: nat, w: nat)
    requires Adds(g, bytes, a, a', i, w) && XorAll(a) == Lookups(g, bytes, i, w)
    ensures XorAll(a') == Lookups(g, bytes, i + |a|, w)
  {
    MoreLookups(g, bytes, i, |a|, w);
    SumsAdd(a, Entries(g, bytes, i, |a|, w), a');
  }

  lemma SumsAdd(a: seq<Block>, e: seq<Block>, a': seq<Block>)
    requires |a| == |e| == |a'| && forall l :: 0 <= l < |a| ==> a'[l] == Xor(a[l], e[l])
    ensures XorAll(a') == Xor(XorAll(a), XorAll(e))
  {
    XorAllZip(a, e, a');
  }

  method Step(g: seq<Row>, t: seq<seq<Row>>, bytes: seq<nat>, c: seq<Row>, words: nat, i: nat) returns (c': seq<Row>)
    requires IsTable(g, words, t) && Holding(g, bytes, c, words, i) && i + |c| <= |t| <= |bytes| && IsBytes(bytes)
    ensures |c'| == |c| && Holding(g, bytes, c', words, i + |c|)
  {
    c' := [];
    while |c'| < |c|
      invariant |c'| <= |c| && Wide(c', words)
      invariant forall l :: 0 <= l < |c'| ==> c'[l] == XorRow(c[l], TableRow(g, words, i + l, bytes[i + l], 8))
    {
      var l := |c'|;
      assert t[i + l][bytes[i + l]] == TableRow(g, words, i + l, bytes[i + l], 8);
      c' := c' + [XorRow(c[l], t[i + l][bytes[i + l]])];
    }
    StepHolds(g, bytes, c, c', words, i, i + |c|);
  }

  predicate IsBytes(bytes: seq<nat>) {
    forall i :: 0 <= i < |bytes| ==> bytes[i] < 256
  }

  lemma {:induction false} XorAllAppend(a: seq<Block>, b: seq<Block>)
    ensures XorAll(a + b) == Xor(XorAll(a), XorAll(b))
    decreases |b|
  {
    if b == [] {
      assert a + b == a;
      XorSelf(XorAll(a));
    } else {
      var n := |b| - 1;
      assert a + b == (a + b[..n]) + [b[n]];
      XorAllPush(a + b[..n], b[n]);
      XorAllAppend(a, b[..n]);
      XorAssoc(XorAll(a), XorAll(b[..n]), b[n]);
    }
  }

  /** Folding the upper half of the lanes onto the lower half keeps the sum. */
  lemma FoldHolds(g: seq<Row>, bytes: seq<nat>, c: seq<Row>, c': seq<Row>, words: nat, n: nat)
    requires Holding(g, bytes, c, words, n) && |c| == 2 * |c'| && |c'| > 0 && Wide(c', words)
    requires forall l :: 0 <= l < |c'| ==> c'[l] == XorRow(c[l], c[l + |c'|])
    ensures Holding(g, bytes, c', words, n)
  {
    var h := |c'|;
    forall w | 0 <= w < words ensures ColumnHolds(g, bytes, c', words, n, w) {
      assert ColumnHolds(g, bytes, c, words, n, w);
      var a, b := Column(c[..h], words, w), Column(c[h..], words, w);
      assert Column(c, words, w) == a + b;
      XorAllAppend(a, b);
      XorAllZip(a, b, Column(c', words, w));
    }
  }

  method Fold(g: seq<Row>, bytes: seq<nat>, c: seq<Row>, words: nat, ghost n: nat) returns (c': seq<Row>)
    requires Holding(g, bytes, c, words, n) && |c| % 2 == 0
    ensures |c| == 2 * |c'| && Holding(g, bytes, c', words, n)
  {
    var h := |c| / 2;
    c' := seq(h, l requires 0 <= l < h => XorRow(c[l], c[l + h]));
    FoldHolds(g, bytes, c, c', words, n);
  }

  lemma ZerosHold(g: seq<Row>, bytes: seq<nat>, lanes: nat, words: nat)
    requires lanes > 0
    ensures Holding(g, bytes, seq(lanes, l => seq(words, w => ZERO)), words, 0)
  {
    var c := seq(lanes, l => seq(words, w => ZERO));
    forall w | 0 <= w < words ensures ColumnHolds(g, bytes, c, words, 0, w) {
      XorAllZero(Column(c, words, w));
    }
  }

  predicate LaneCount(lanes: nat) {
    lanes == 1 || lanes == 2 || lanes == 4 || lanes == 8
  }

  method Accumulate(g: seq<Row>, t: seq<seq<Row>>, bytes: seq<nat>, lanes: nat, words: nat) returns (c: seq<Row>)
    requires IsTable(g, words, t) && |t| <= |bytes| && IsBytes(bytes) && LaneCount(lanes)
    ensures |c| == lanes && Holding(g, bytes, c, words, |t|)
  {
    c := seq(lanes, l => seq(words, w => ZERO));
    ZerosHold(g, bytes, lanes, words);
    var i := 0;
    while i < |t|
      invariant 0 <= i <= |t| && Aligned(i, lanes) && |c| == lanes && Holding(g, bytes, c, words, i)
    {
      StepFits(|g|, i, lanes);
      c := Step(g, t, bytes, c, words, i);
      i := i + lanes;
    }
  }

  method FoldAll(g: seq<Row>, bytes: seq<nat>, c: seq<Row>, words: nat, ghost n: nat) returns (row: Row)
    requires Holding(g, bytes, c, words, n) && LaneCount(|c|)
    ensures |row| == words && forall w :: 0 <= w < words ==> row[w] == Lookups(g, bytes, n, w)
  {
    var f := c;
    while |f| > 1
      invariant LaneCount(|f|) && Holding(g, bytes, f, words, n)
    {
      f := Fold(g, bytes, f, words, n);
    }
    row := f[0];
    forall w | 0 <= w < words ensures row[w] == Lookups(g, bytes, n, w) {
      assert ColumnHolds(g, bytes, f, words, n, w);
      XorAllSingle(Column(f, words, w), 0);
    }
  }

  /** The cases of 1, 2, 4 and 8 blocks: 8, 4, 2 or 1 lookups per step, then the lanes are folded in halves. */
  method EncodeLanes(g: seq<Row>, t: seq<seq<Row>>, bytes: seq<nat>, lanes: nat, words: nat) returns (row: Row)
    requires IsTable(g, words, t) && |t| <= |bytes| && IsBytes(bytes) && LaneCount(lanes)
    ensures |row| == words && forall w :: 0 <= w < words ==> row[w] == Lookups(g, bytes, |t|, w)
  {
    var c := Accumulate(g, t, bytes, lanes, words);
    row := FoldAll(g, bytes, c, words, |t|);
  }

  /** `i` is a multiple of the lane count. */
  predicate Aligned(i: nat, lanes: nat) {
    if lanes == 8 then i % 8 == 0 else if lanes == 4 then i % 4 == 0 else if lanes == 2 then i % 2 == 0 else true
  }

  /** The table's length is a multiple of every lane count. */
  lemma StepFits(bits: nat, i: nat, lanes: nat)
    requires LaneCount(lanes) && Aligned(i, lanes) && i < Chunks(bits)
    ensures i + lanes <= Chunks(bits) && Aligned(i + lanes, lanes)
  {
    var m := ((bits + 7) / 8 + 7) / 8;
    assert Chunks(bits) == 8 * m;
  }

  // ---------------------------------------------------------------- wide codewords

  lemma TreeSum(c: seq<Block>)
    requires |c| == 8
    ensures XorAll(c) == Xor(Xor(Xor(c[0], c[1]), Xor(c[2], c[3])), Xor(Xor(c[4], c[5]), Xor(c[6], c[7])))
  {
    PairSum(c[..2]);
    PairSum(c[2..4]);
    PairSum(c[4..6]);
    PairSum(c[6..]);
    assert c[..4] == c[..2] + c[2..4] && c[4..] == c[4..6] + c[6..] && c == c[..4] + c[4..];
    XorAllAppend(c[..2], c[2..4]);
    XorAllAppend(c[4..6], c[6..]);
    XorAllAppend(c[..4], c[4..]);
  }

  lemma PairSum(c: seq<Block>)
    requires |c| == 2
    ensures XorAll(c) == Xor(c[0], c[1])
  {
    XorAllSingle(c[..1], 0);
  }

  /** Eight lookups of word `w`, one per lane. */
  method StepWord(g: seq<Row>, t: seq<seq<Row>>, bytes: seq<nat>, size: nat, c: seq<Block>, i: nat, w: nat) returns (c': seq<Block>)
    requires IsTable(g, size, t) && |c| == 8 && i + 8 <= |t| <= |bytes| && IsBytes(bytes) && w < size
    requires XorAll(c) == Lookups(g, bytes, i, w)
    ensures |c'| == 8 && XorAll(c') == Lookups(g, bytes, i + 8, w)
  {
    c' := [];
    while |c'| < 8
      invariant |c'| <= 8
      invariant forall l :: 0 <= l < |c'| ==> c'[l] == Xor(c[l], Entries(g, bytes, i, 8, w)[l])
    {
      var l := |c'|;
      assert t[i + l][bytes[i + l]] == TableRow(g, size, i + l, bytes[i + l], 8);
      c' := c' + [Xor(c[l], t[i + l][bytes[i + l]][w])];
    }
    ColumnSum(g, bytes, c, c', i, w);
  }

  method EncodeWord(g: seq<Row>, t: seq<seq<Row>>, bytes: seq<nat>, size: nat, w: nat) returns (b: Block)
    requires IsTable(g, size, t) && |t| <= |bytes| && IsBytes(bytes) && w < size
    ensures b == Lookups(g, bytes, |t|, w)
  {
    var c := seq(8, l => ZERO);
    XorAllZero(c);
    var i := 0;
    while i < |t|
      invariant 0 <= i <= |t| && Aligned(i, 8) && |c| == 8 && XorAll(c) == Lookups(g, bytes, i, w)
    {
      StepFits(|g|, i, 8);
      c := StepWord(g, t, bytes, size, c, i, w);
      i := i + 8;
    }
    TreeSum(c);
    b := Xor(Xor(Xor(c[0], c[1]), Xor(c[2], c[3])), Xor(Xor(c[4], c[5]), Xor(c[6], c[7])));
  }

  /** The general case: word by word. */
  method EncodeWide(g: seq<Row>, t: seq<seq<Row>>, bytes: seq<nat>, size: nat) returns (row: Row)
    requires IsTable(g, size, t) && |t| <= |bytes| && IsBytes(bytes)
    ensures |row| == size && forall w :: 0 <= w < size ==> row[w] == Lookups(g, bytes, |t|, w)
  {
    row := [];
    while |row| < size
      invariant |row| <= size && forall w :: 0 <= w < |row| ==> row[w] == Lookups(g, bytes, |t|, w)
    {
      var b := EncodeWord(g, t, bytes, size, |row|);
      row := row + [b];
    }
  }

  // ---------------------------------------------------------------- encode

  /** The first `n` bytes of a row of blocks, bit by bit. */
  function Truncated(row: Row, n: nat): (r: seq<bool>)
    requires 8 * n <= 128 * |row|
    ensures |r| == 8 * n
  {
    seq(8 * n, k requires 0 <= k < 8 * n => row[k / 128].bits[k % 128])
  }

  /** Plaintext bit `m`, in memory order. */
  predicate PlainBit(input: seq<nat>, m: nat) {
    m / 8 < |input| && input[m / 8] / Pow2(m % 8) % 2 == 1
  }

  /** Bit `k` of generator row `m`, in memory order. */
  predicate GeneratorBit(g: seq<Row>, m: nat, k: nat) {
    m < |g| && k / 128 < |g[m]| && g[m][k / 128].bits[k % 128]
  }

  /** The sum modulo 2 of bit `k` of the generator rows below `n` that the plaintext selects. */
  predicate Parity(g: seq<Row>, input: seq<nat>, n: nat, k: nat) {
    n > 0 && Parity(g, input, n - 1, k) != (PlainBit(input, n - 1) && GeneratorBit(g, n - 1, k))
  }

  lemma {:induction false} ProductBit(g: seq<Row>, input: seq<nat>, n: nat, k: nat)
    requires n <= 8 * |input|
    ensures Product(g, input, n, k / 128).bits[k % 128] == Parity(g, input, n, k)
  {
    BitLaws();
    if n > 0 {
      ProductBit(g, input, n - 1, k);
    }
  }

  /** The product of the plaintext with the generator matrix over GF(2), cut to the codeword's bytes. */
  ghost predicate IsCodeword(g: seq<Row>, input: seq<nat>, codeBits: nat, out: seq<bool>) {
    |out| == 8 * ((codeBits + 7) / 8) && forall k :: 0 <= k < |out| ==> out[k] == Parity(g, input, |g|, k)
  }

  lemma {:induction false} ParityOfUnit(g: seq<Row>, input: seq<nat>, m: nat, n: nat, k: nat)
    requires forall q :: 0 <= q < n ==> PlainBit(input, q) == (q == m)
    ensures Parity(g, input, n, k) == (m < n && GeneratorBit(g, m, k))
  {
    if n > 0 {
      ParityOfUnit(g, input, m, n - 1, k);
    }
  }

  /** A plaintext with the single bit `m` becomes generator row `m`, bit for bit. */
  lemma CodewordOfUnit(g: seq<Row>, input: seq<nat>, codeBits: nat, out: seq<bool>, m: nat, k: nat)
    requires IsCodeword(g, input, codeBits, out) && Wide(g, (codeBits + 127) / 128) && m < |g| <= 8 * |input| && k < |out|
    requires forall q :: 0 <= q < |g| ==> (input[q / 8] / Pow2(q % 8) % 2 == 1) == (q == m)
    ensures out[k] == g[m][k / 128].bits[k % 128]
  {
    ParityOfUnit(g, input, m, |g|, k);
  }

  lemma {:induction false} ParityAdds(g: seq<Row>, a: seq<nat>, b: seq<nat>, c: seq<nat>, n: nat, k: nat)
    requires forall q :: 0 <= q < n ==> PlainBit(c, q) == (PlainBit(a, q) != PlainBit(b, q))
    ensures Parity(g, c, n, k) == (Parity(g, a, n, k) != Parity(g, b, n, k))
  {
    if n > 0 {
      ParityAdds(g, a, b, c, n - 1, k);
    }
  }

  /** The codeword of a sum is the sum of the codewords. */
  lemma CodewordsAdd(g: seq<Row>, a: seq<nat>, b: seq<nat>, c: seq<nat>, codeBits: nat, outA: seq<bool>, outB: seq<bool>, outC: seq<bool>)
    requires IsCodeword(g, a, codeBits, outA) && IsCodeword(g, b, codeBits, outB) && IsCodeword(g, c, codeBits, outC)
    requires |g| <= 8 * |a| && |g| <= 8 * |b| && |g| <= 8 * |c|
    requires forall q :: 0 <= q < |g| ==> (c[q / 8] / Pow2(q % 8) % 2 == 1) == ((a[q / 8] / Pow2(q % 8) % 2 == 1) != (b[q / 8] / Pow2(q % 8) % 2 == 1))
    ensures |outA| == |outB| == |outC| && forall k :: 0 <= k < |outC| ==> outC[k] == (outA[k] != outB[k])
  {
    forall k | 0 <= k < |outC| ensures outC[k] == (outA[k] != outB[k]) {
      ParityAdds(g, a, b, c, |g|, k);
    }
  }

  /** The lookups of padded bytes are the product of the plaintext alone. */
  lemma LookupsOfInput(g: seq<Row>, input: seq<nat>, pad: seq<nat>, n: nat, w: nat)
    requires |g| <= 8 * |input| && |g| <= 8 * n && n <= |input + pad|
    ensures Lookups(g, input + pad, n, w) == Product(g, input, |g|, w)
  {
    LookupsAreProduct(g, input + pad, n, w, 8 * n);
    ProductBeyond(g, input + pad, 8 * n, w);
    ProductDependsOnBits(g, input + pad, input, |g|, w);
  }

  lemma ChunksCover(bits: nat)
    ensures bits <= 8 * ((bits + 7) / 8) && bits <= 8 * Chunks(bits) && (bits <= 512 ==> Chunks(bits) <= 64)
  {
  }

  lemma CodewordIs(g: seq<Row>, input: seq<nat>, pad: seq<nat>, blk: nat, n: nat, row: Row, codeBits: nat)
    requires |g| <= 8 * |input| && |g| <= 8 * n && n <= |input + pad| && blk <= |row| && blk == (codeBits + 127) / 128
    requires forall w :: 0 <= w < |row| ==> row[w] == Lookups(g, input + pad, n, w)
    ensures 8 * ((codeBits + 7) / 8) <= 128 * |row| && IsCodeword(g, input, codeBits, Truncated(row, (codeBits + 7) / 8))
  {
    var bytes := (codeBits + 7) / 8;
    assert bytes <= 16 * blk;
    forall k | 0 <= k < 8 * bytes ensures Truncated(row, bytes)[k] == Parity(g, input, |g|, k) {
      LookupsOfInput(g, input, pad, n, k / 128);
      ProductBit(g, input, |g|, k);
    }
  }

  /**
   `encode` for a plaintext of at most 64 bytes: for every width, the product with the generator matrix, cut to
   the codeword's bytes. `pad` is what the rest of the 64-byte local buffer happens to hold.
   */
  method Encode(g: seq<Row>, blk: nat, t: seq<seq<Row>>, input: seq<nat>, pad: seq<nat>, codeBits: nat) returns (out: seq<bool>)
    requires blk == (codeBits + 127) / 128 > 0 && IsTable(g, PaddedSize(blk), t)
    requires |input| == (|g| + 7) / 8 && |input| + |pad| == 64 && IsBytes(input) && IsBytes(pad)
    ensures IsCodeword(g, input, codeBits, out)
  {
    var bytes, size := input + pad, PaddedSize(blk);
    ChunksCover(|g|);
    var row;
    if size == 1 {
      row := EncodeLanes(g, t, bytes, 8, size);
    } else if size == 2 {
      row := EncodeLanes(g, t, bytes, 4, size);
    } else if size == 4 {
      row := EncodeLanes(g, t, bytes, 2, size);
    } else if size == 8 {
      row := EncodeLanes(g, t, bytes, 1, size);
    } else {
      row := EncodeWide(g, t, bytes, size);
    }
    CodewordIs(g, input, pad, blk, |t|, row, codeBits);
    out := Truncated(row, (codeBits + 7) / 8);
  }

  datatype Encoded = Refused | Codeword(bits: seq<bool>)

  /** Generating the table and encoding with it: a plaintext over 64 bytes is refused, any other becomes its product. */
  method GenerateThenEncode(g: seq<Row>, blk: nat, input: seq<nat>, pad: seq<nat>, codeBits: nat) returns (r: Encoded)
    requires blk == (codeBits + 127) / 128 > 0 && Wide(g, blk) && |input| == (|g| + 7) / 8 && IsBytes(input) && IsBytes(pad)
    requires |input| <= MAX_PLAINTEXT_BYTES ==> |input| + |pad| == MAX_PLAINTEXT_BYTES
    ensures r.Refused? <==> |input| > MAX_PLAINTEXT_BYTES
    ensures r.Codeword? ==> IsCodeword(g, input, codeBits, r.bits)
  {
    var generated := GenerateTable(g, blk);
    match generated
    case TooLong => r := Refused;
    case Table(rows) =>
      var bits := Encode(g, blk, rows, input, pad, codeBits);
      r := Codeword(bits);
  }

  /** `encode_bch511`: ten plaintext bytes and codewords of four blocks, without the loop over padding. */
  method EncodeBch511(g: seq<Row>, blk: nat, t: seq<seq<Row>>, input: seq<nat>, codeBits: nat) returns (out: seq<bool>)
    requires blk == (codeBits + 127) / 128 && PaddedSize(blk) == 4 && IsTable(g, 4, t)
    requires |input| == (|g| + 7) / 8 == 10 && IsBytes(input)
    ensures IsCodeword(g, input, codeBits, out)
  {
    var c := seq(2, l => seq(4, w => ZERO));
    ZerosHold(g, input, 2, 4);
    var i := 0;
    while i < 10
      invariant 0 <= i <= 10 && i % 2 == 0 && |c| == 2 && Holding(g, input, c, 4, i)
    {
      c := StepTen(g, t, input, c, i);
      i := i + 2;
    }
    var row := FoldAll(g, input, c, 4, 10);
    assert input + [] == input;
    CodewordIs(g, input, [], blk, 10, row, codeBits);
    out := Truncated(row, (codeBits + 7) / 8);
  }

  method StepTen(g: seq<Row>, t: seq<seq<Row>>, input: seq<nat>, c: seq<Row>, i: nat) returns (c': seq<Row>)
    requires IsTable(g, 4, t) && Holding(g, input, c, 4, i) && |c| == 2 && i + 2 <= 10 == |input| <= |t| && IsBytes(input)
    ensures |c'| == 2 && Holding(g, input, c', 4, i + 2)
  {
    assert t[i][input[i]] == TableRow(g, 4, i, input[i], 8) && t[i + 1][input[i + 1]] == TableRow(g, 4, i + 1, input[i + 1], 8);
    c' := [XorRow(c[0], t[i][input[i]]), XorRow(c[1], t[i + 1][input[i + 1]])];
    StepHolds(g, input, c, c', 4, i, i + 2);
  }
}
