/** The byte table of `LinearCode`: one precomputed codeword for every value of every plaintext byte. */
module CodeTable {
  import opened Blocks
  import opened Words

  /** Bit `b` of a byte. */
  predicate ByteBit(v: nat, b: nat) {
    v / Pow2(b) % 2 == 1
  }

  /** Block `w` of generator row `m` when it exists and is selected, zero otherwise. */
  function Selected(g: seq<Row>, m: nat, w: nat, on: bool): Block {
    if m < |g| && w < |g[m]| && on then g[m][w] else ZERO
  }

  /** The sum of the generator rows selected by the low `n` bits of byte `v` in position `i`. */
  function ByteSum(g: seq<Row>, i: nat, v: nat, n: nat, w: nat): Block
    decreases v, n
  {
    if n == 0 then ZERO else Xor(ByteSum(g, i, v, n - 1, w), Selected(g, 8 * i + n - 1, w, ByteBit(v, n - 1)))
  }

  /** A table row once the first `n` generator rows of its byte are added. */
  function TableRow(g: seq<Row>, size: nat, i: nat, v: nat, n: nat): (r: Row)
    ensures |r| == size
  {
    seq(size, w requires 0 <= w < size => ByteSum(g, i, v, n, w))
  }

  /** Rows before `at` have generator row `n` added, if their bit selects it; the others not yet. */
  ghost predicate Partly(g: seq<Row>, size: nat, i: nat, n: nat, rows: seq<Row>, at: nat) {
    |rows| == 256 && forall v :: 0 <= v < 256 ==> rows[v] == TableRow(g, size, i, v, if v < at then n + 1 else n)
  }

  /** The word loop: adds a generator row to a table row. */
  method AddRow(row: Row, gRow: Row) returns (r: Row)
    requires |gRow| <= |row|
    ensures |r| == |row| && forall w :: 0 <= w < |r| ==> r[w] == if w < |gRow| then Xor(row[w], gRow[w]) else row[w]
  {
    r := row;
    var w := 0;
    while w < |gRow|
      invariant 0 <= w <= |gRow| && |r| == |row|
      invariant forall q :: 0 <= q < |r| ==> r[q] == if q < w then Xor(row[q], gRow[q]) else row[q]
    {
      r := r[w := Xor(r[w], gRow[w])];
      w := w + 1;
    }
  }

  lemma RowAdded(g: seq<Row>, blk: nat, size: nat, i: nat, v: nat, n: nat, r: Row)
    requires Wide(g, blk) && blk <= size && |r| == size && ByteBit(v, n)
    requires if 8 * i + n < |g| then (forall w :: 0 <= w < size ==> r[w] == if w < blk then Xor(TableRow(g, size, i, v, n)[w], g[8 * i + n][w]) else TableRow(g, size, i, v, n)[w])
             else r == TableRow(g, size, i, v, n)
    ensures r == TableRow(g, size, i, v, n + 1)
  {
    forall w | 0 <= w < size ensures r[w] == TableRow(g, size, i, v, n + 1)[w] {
      XorSelf(ByteSum(g, i, v, n, w));
    }
  }

  /** A row whose bit is not set does not change. */
  lemma RowSkipped(g: seq<Row>, size: nat, i: nat, v: nat, n: nat)
    requires !ByteBit(v, n)
    ensures TableRow(g, size, i, v, n) == TableRow(g, size, i, v, n + 1)
  {
    forall w | 0 <= w < size ensures TableRow(g, size, i, v, n)[w] == TableRow(g, size, i, v, n + 1)[w] {
      XorSelf(ByteSum(g, i, v, n, w));
    }
  }

  lemma BitOfRun(v: nat, n: nat, stride: nat, b: nat, j: nat)
    requires stride == Pow2(n) && v == stride * b + j && j < stride
    ensures ByteBit(v, n) == (b % 2 == 1)
  {
    DivUnique(stride, v, b, j);
  }

  /** Where the a-th run of rows with the bit starts: `stride * (2a + 1)`. */
  function RunStart(stride: nat, a: nat): nat {
    if a == 0 then stride else RunStart(stride, a - 1) + 2 * stride
  }

  lemma {:induction false} RunStartIs(stride: nat, a: nat)
    ensures RunStart(stride, a) == stride * (2 * a + 1)
  {
    if a > 0 {
      RunStartIs(stride, a - 1);
      assert stride * (2 * a + 1) == stride * (2 * (a - 1) + 1) + 2 * stride;
    }
  }

  /** Rows of a run have the bit, rows of the gap after it do not. */
  lemma RunBit(n: nat, stride: nat, a: nat, v: nat)
    requires stride == Pow2(n) && RunStart(stride, a) <= v < RunStart(stride, a) + 2 * stride
    ensures ByteBit(v, n) == (v < RunStart(stride, a) + stride)
  {
    RunStartIs(stride, a);
    var start := RunStart(stride, a);
    if v < start + stride {
      BitOfRun(v, n, stride, 2 * a + 1, v - start);
    } else {
      assert stride * (2 * a + 2) == start + stride;
      BitOfRun(v, n, stride, 2 * a + 2, v - start - stride);
    }
  }

  /** Rows of a range without the bit are complete as they are. */
  lemma SkipRows(g: seq<Row>, size: nat, i: nat, n: nat, rows: seq<Row>, at: nat, to: nat)
    requires at <= to && Partly(g, size, i, n, rows, at) && forall v :: at <= v < to ==> !ByteBit(v, n)
    ensures Partly(g, size, i, n, rows, to)
  {
    forall v | at <= v < to && v < 256 ensures rows[v] == TableRow(g, size, i, v, n + 1) {
      RowSkipped(g, size, i, v, n);
    }
  }

  lemma FirstGap(n: nat, stride: nat, v: nat)
    requires stride == Pow2(n) && v < stride
    ensures !ByteBit(v, n)
  {
    BitOfRun(v, n, stride, 0, v);
  }

  /** Runs end before 256, which is a whole number of pairs of runs. */
  lemma RunFits(n: nat, stride: nat, a: nat)
    requires n < 8 && stride == Pow2(n) && RunStart(stride, a) < 256
    ensures RunStart(stride, a) + stride <= 256
  {
    RunStartIs(stride, a);
    Pow2Add(n, 8 - n);
    assert Pow2(8) == 256 by { assert Pow2(4) == 16; }
    PairsFit(stride, a, Pow2(8 - n));
  }

  lemma PairsFit(stride: nat, a: nat, m: nat)
    requires stride * (2 * a + 1) < stride * m
    ensures stride * (2 * a + 1) + stride <= stride * m
  {
    if m <= 2 * a + 1 {
      MulMonotone(stride, m, 2 * a + 1);
    }
    MulMonotone(stride, 2 * a + 2, m);
  }

  lemma RunEnds(stride: nat, a: nat, j: nat)
    requires 0 < j <= stride
    ensures (RunStart(stride, a) + j) % stride != 0 <==> j < stride
  {
    RunStartIs(stride, a);
    var b := 2 * a + 1;
    if j < stride {
      DivUnique(stride, stride * b + j, b, j);
    } else {
      DivUnique(stride, stride * b + j, b + 1, 0);
    }
  }

  /** The `do ... while (g8Row % stride)` loop: all rows of one run get the generator row. */
  method AddRun(g: seq<Row>, blk: nat, size: nat, i: nat, n: nat, chunk: array<Row>, stride: nat, ghost a: nat, start: nat) returns (end: nat)
    requires Wide(g, blk) && blk <= size && n < 8 && stride == Pow2(n) && start == RunStart(stride, a) < 256
    requires chunk.Length == 256 && Partly(g, size, i, n, chunk[..], start)
    modifies chunk
    ensures end == start + stride <= 256 && Partly(g, size, i, n, chunk[..], end)
  {
    RunFits(n, stride, a);
    end := start;
    var more := true;
    while more
      invariant start <= end <= start + stride && (more <==> end < start + stride)
      invariant Partly(g, size, i, n, chunk[..], end)
      decreases start + stride - end
    {
      RunBit(n, stride, a, end);
      AddAt(g, blk, size, i, n, chunk, end);
      end := end + 1;
      RunEnds(stride, a, end - start);
      more := end % stride != 0;
    }
  }

  method AddAt(g: seq<Row>, blk: nat, size: nat, i: nat, n: nat, chunk: array<Row>, v: nat)
    requires Wide(g, blk) && blk <= size && v < 256 == chunk.Length && ByteBit(v, n) && Partly(g, size, i, n, chunk[..], v)
    modifies chunk
    ensures Partly(g, size, i, n, chunk[..], v + 1)
  {
    ghost var was := chunk[..];
    assert was[v] == TableRow(g, size, i, v, n);
    var r := chunk[v];
    if 8 * i + n < |g| {
      r := AddRow(chunk[v], g[8 * i + n]);
    }
    RowAdded(g, blk, size, i, v, n, r);
    chunk[v] := r;
    assert chunk[..] == was[v := r];
  }

  /** The loop over the runs that have bit `n`. */
  method AddGeneratorRow(g: seq<Row>, blk: nat, size: nat, i: nat, n: nat, chunk: array<Row>)
    requires Wide(g, blk) && blk <= size && n < 8 && chunk.Length == 256 && Partly(g, size, i, n, chunk[..], 0)
    modifies chunk
    ensures Partly(g, size, i, n + 1, chunk[..], 0)
  {
    var stride := Pow2(n);
    var row := stride;
    ghost var a := 0;
    forall v | 0 <= v < stride ensures !ByteBit(v, n) {
      FirstGap(n, stride, v);
    }
    SkipRows(g, size, i, n, chunk[..], 0, stride);
    while row < 256
      invariant row == RunStart(stride, a) && Partly(g, size, i, n, chunk[..], row)
      decreases if row < 256 then 256 - row else 0
    {
      var end := AddRun(g, blk, size, i, n, chunk, stride, a, row);
      forall v | end <= v < end + stride ensures !ByteBit(v, n) {
        RunBit(n, stride, a, v);
      }
      SkipRows(g, size, i, n, chunk[..], end, end + stride);
      row := end + stride;
      a := a + 1;
    }
  }

  /** One chunk of the table: all values of one plaintext byte. */
  method BuildChunk(g: seq<Row>, blk: nat, size: nat, i: nat) returns (rows: seq<Row>)
    requires Wide(g, blk) && blk <= size
    ensures |rows| == 256 && forall v :: 0 <= v < 256 ==> rows[v] == TableRow(g, size, i, v, 8)
  {
    var zero := seq(size, w => ZERO);
    var chunk := new Row[256](_ => zero);
    forall v | 0 <= v < 256 ensures zero == TableRow(g, size, i, v, 0) {
    }
    var n := 0;
    while n < 8
      invariant 0 <= n <= 8 && Partly(g, size, i, n, chunk[..], 0)
    {
      AddGeneratorRow(g, blk, size, i, n, chunk);
      n := n + 1;
    }
    rows := chunk[..];
  }

  /** The number of chunks: one per plaintext byte, rounded up to a multiple of 8. */
  function Chunks(bits: nat): nat {
    ((bits + 7) / 8 + 7) / 8 * 8
  }

  /** The table holds, for every byte position and value, the sum of the selected generator rows. */
  ghost predicate IsTable(g: seq<Row>, size: nat, t: seq<seq<Row>>) {
    && |t| == Chunks(|g|)
    && forall i :: 0 <= i < |t| ==> |t[i]| == 256 && forall v :: 0 <= v < 256 ==> t[i][v] == TableRow(g, size, i, v, 8)
  }

  /** Codewords of 3 and of 5 to 7 blocks are padded to 4 and 8 blocks. */
  function PaddedSize(blk: nat): (size: nat)
    ensures size >= blk
  {
    if blk == 3 then 4 else if 5 <= blk <= 7 then 8 else blk
  }

  const MAX_PLAINTEXT_BYTES := 64

  datatype Generated = TooLong | Table(rows: seq<seq<Row>>)

  /** `generateMod8Table`: refuses plaintexts of more bytes than `encode` has room for. */
  method GenerateTable(g: seq<Row>, blk: nat) returns (r: Generated)
    requires Wide(g, blk)
    ensures r.TooLong? <==> (|g| + 7) / 8 > MAX_PLAINTEXT_BYTES
    ensures r.Table? ==> IsTable(g, PaddedSize(blk), r.rows)
  {
    if (|g| + 7) / 8 > MAX_PLAINTEXT_BYTES {
      return TooLong;
    }
    var t := [];
    while |t| < Chunks(|g|)
      invariant |t| <= Chunks(|g|)
      invariant forall i :: 0 <= i < |t| ==> |t[i]| == 256 && forall v :: 0 <= v < 256 ==> t[i][v] == TableRow(g, PaddedSize(blk), i, v, 8)
    {
      var rows := BuildChunk(g, blk, PaddedSize(blk), |t|);
      t := t + [rows];
    }
    r := Table(t);
  }
}
