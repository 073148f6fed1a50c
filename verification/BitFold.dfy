/** `QuasiCyclicCode::bitShiftXor` and `modp`: folding a bit string modulo x^p - 1 with 64-bit lane shifts. */
module BitFold {
  import opened Blocks

  /** Bit `k` of the memory that a run of blocks occupies. */
  predicate FlatBit(s: seq<Block>, k: nat)
    requires k < 128 * |s|
  {
    s[k / 128].bits[k % 128]
  }

  /** Bit `k + shift`, or zero beyond the end. */
  predicate Shifted(s: seq<Block>, shift: nat, k: nat) {
    k + shift < 128 * |s| && FlatBit(s, k + shift)
  }

  function ShiftedBlock(s: seq<Block>, shift: nat, i: nat): Block {
    Block(seq(128, j requires 0 <= j < 128 => Shifted(s, shift, 128 * i + j)))
  }

  /** `toBlock(ptr)` at 64-bit word `w`. */
  function Load(s: seq<Block>, w: nat): Block
    requires 64 * w + 128 <= 128 * |s|
  {
    Block(seq(128, j requires 0 <= j < 128 => FlatBit(s, 64 * w + j)))
  }

  /** `block >> n` and `block << n`: both 64-bit lanes are shifted on their own. */
  function ShrLanes(b: Block, n: nat): Block {
    Block(seq(128, j requires 0 <= j < 128 => j % 64 + n < 64 && b.bits[j + n]))
  }

  function ShlLanes(b: Block, n: nat): Block {
    Block(seq(128, j requires 0 <= j < 128 => n <= j % 64 && b.bits[j - n]))
  }

  /** A 64-bit word as the low half of a block. */
  function LowHalf(b: Block): Block {
    Block(seq(128, j requires 0 <= j < 128 => j < 64 && b.bits[j]))
  }

  /** The word at `w` alone, in the low half. */
  function LoadWord(s: seq<Block>, w: nat): Block
    requires 64 * w + 64 <= 128 * |s|
  {
    Block(seq(128, j requires 0 <= j < 128 => j < 64 && FlatBit(s, 64 * w + j)))
  }

  lemma ShrBit(b: Block, n: nat, j: nat)
    requires j < 128
    ensures ShrLanes(b, n).bits[j] == (j % 64 + n < 64 && b.bits[j + n])
  {
  }

  lemma ShlBit(b: Block, n: nat, j: nat)
    requires j < 128
    ensures ShlLanes(b, n).bits[j] == (n <= j % 64 && b.bits[j - n])
  {
  }

  lemma LoadBit(s: seq<Block>, w: nat, j: nat)
    requires 64 * w + 128 <= 128 * |s| && j < 128
    ensures Load(s, w).bits[j] == FlatBit(s, 64 * w + j)
  {
  }

  lemma LoadWordBit(s: seq<Block>, w: nat, j: nat)
    requires 64 * w + 64 <= 128 * |s| && j < 64
    ensures LoadWord(s, w).bits[j] == FlatBit(s, 64 * w + j)
  {
  }

  lemma ShiftedBit(s: seq<Block>, shift: nat, i: nat, j: nat)
    requires j < 128
    ensures ShiftedBlock(s, shift, i).bits[j] == Shifted(s, shift, 128 * i + j)
  {
  }

  /** Two lane shifts of neighbouring loads make one 128-bit window, `n` bits after word `w`. */
  lemma Window(s: seq<Block>, w: nat, n: nat, j: nat)
    requires 64 * (w + 1) + 128 <= 128 * |s| && n < 64 && j < 128
    ensures Xor(ShrLanes(Load(s, w), n), ShlLanes(Load(s, w + 1), 64 - n)).bits[j] == FlatBit(s, 64 * w + n + j)
  {
    BitLaws();
    ShrBit(Load(s, w), n, j);
    ShlBit(Load(s, w + 1), 64 - n, j);
    if j % 64 + n < 64 {
      LoadBit(s, w, j + n);
    } else {
      LoadBit(s, w + 1, j - (64 - n));
    }
  }

  lemma LowWindow(s: seq<Block>, i: nat, n: nat)
    requires i + 1 < |s| && 0 < n < 64
    ensures Xor(ShrLanes(Load(s, 2 * i), n), ShlLanes(Load(s, 2 * i + 1), 64 - n)) == ShiftedBlock(s, n, i)
  {
    var l, r := Xor(ShrLanes(Load(s, 2 * i), n), ShlLanes(Load(s, 2 * i + 1), 64 - n)), ShiftedBlock(s, n, i);
    forall j | 0 <= j < 128 ensures l.bits[j] == r.bits[j] {
      Window(s, 2 * i, n, j);
      ShiftedBit(s, n, i, j);
    }
    Extensional(l, r);
  }

  lemma HighWindow(s: seq<Block>, i: nat, n: nat)
    requires i + 1 < |s| && n < 64
    ensures Xor(ShrLanes(Load(s, 2 * i + 1), n), ShlLanes(Load(s, 2 * i + 2), 64 - n)) == ShiftedBlock(s, 64 + n, i)
  {
    var l, r := Xor(ShrLanes(Load(s, 2 * i + 1), n), ShlLanes(Load(s, 2 * i + 2), 64 - n)), ShiftedBlock(s, 64 + n, i);
    forall j | 0 <= j < 128 ensures l.bits[j] == r.bits[j] {
      Window(s, 2 * i + 1, n, j);
      ShiftedBit(s, 64 + n, i, j);
    }
    Extensional(l, r);
  }

  /** The last input block, where nothing follows. */
  lemma LowTail(s: seq<Block>, n: nat, e: nat)
    requires |s| == e + 1 && 0 < n < 64
    ensures Xor(ShrLanes(Load(s, 2 * e), n), LowHalf(ShlLanes(LoadWord(s, 2 * e + 1), 64 - n))) == ShiftedBlock(s, n, e)
  {
    var l, r := Xor(ShrLanes(Load(s, 2 * e), n), LowHalf(ShlLanes(LoadWord(s, 2 * e + 1), 64 - n))), ShiftedBlock(s, n, e);
    forall j | 0 <= j < 128 ensures l.bits[j] == r.bits[j] {
      LowTailBit(s, n, e, j);
      ShiftedBit(s, n, e, j);
    }
    Extensional(l, r);
  }

  lemma LowTailBit(s: seq<Block>, n: nat, e: nat, j: nat)
    requires |s| == e + 1 && 0 < n < 64 && j < 128
    ensures Xor(ShrLanes(Load(s, 2 * e), n), LowHalf(ShlLanes(LoadWord(s, 2 * e + 1), 64 - n))).bits[j]
         == Shifted(s, n, 128 * e + j)
  {
    BitLaws();
    ShrBit(Load(s, 2 * e), n, j);
    ShlBit(LoadWord(s, 2 * e + 1), 64 - n, j);
    if j % 64 + n < 64 {
      LoadBit(s, 2 * e, j + n);
    } else if j < 64 {
      LoadWordBit(s, 2 * e + 1, j - (64 - n));
    }
  }

  lemma HighTail(s: seq<Block>, n: nat, e: nat)
    requires |s| == e + 1 && n < 64
    ensures LowHalf(ShrLanes(LoadWord(s, 2 * e + 1), n)) == ShiftedBlock(s, 64 + n, e)
  {
    var l, r := LowHalf(ShrLanes(LoadWord(s, 2 * e + 1), n)), ShiftedBlock(s, 64 + n, e);
    forall j | 0 <= j < 128 ensures l.bits[j] == r.bits[j] {
      ShrBit(LoadWord(s, 2 * e + 1), n, j);
      ShiftedBit(s, 64 + n, e, j);
      if j + n < 64 {
        LoadWordBit(s, 2 * e + 1, j + n);
      }
    }
    Extensional(l, r);
  }

  lemma BeyondEnd(s: seq<Block>, n: nat, i: nat)
    requires |s| <= i
    ensures ShiftedBlock(s, n, i) == ZERO
  {
    BitLaws();
    forall j | 0 <= j < 128 ensures ShiftedBlock(s, n, i).bits[j] == ZERO.bits[j] {
      ShiftedBit(s, n, i, j);
    }
    Extensional(ShiftedBlock(s, n, i), ZERO);
  }

  lemma NoShift(s: seq<Block>, i: nat)
    requires i < |s|
    ensures ShiftedBlock(s, 0, i) == s[i]
  {
    forall j | 0 <= j < 128 ensures ShiftedBlock(s, 0, i).bits[j] == s[i].bits[j] {
      ShiftedBit(s, 0, i, j);
    }
    Extensional(ShiftedBlock(s, 0, i), s[i]);
  }

  // ---------------------------------------------------------------- bitShiftXor

  function Min(a: nat, b: nat): nat {
    if a < b then a else b
  }

  /** Blocks before `n` have the shifted input added, the others are as they were. */
  ghost predicate AddedUpTo(was: seq<Block>, now: seq<Block>, inp: seq<Block>, shift: nat, n: nat) {
    |was| == |now| && forall i :: 0 <= i < |now| ==> now[i] == if i < n then Xor(was[i], ShiftedBlock(inp, shift, i)) else was[i]
  }

  /** Bit by bit. */
  lemma AddedBits(was: seq<Block>, now: seq<Block>, inp: seq<Block>, shift: nat)
    requires AddedUpTo(was, now, inp, shift, |was|)
    ensures forall i, j :: 0 <= i < |was| && 0 <= j < 128 ==> var q := 128 * i + j + shift;
              now[i].bits[j] == (was[i].bits[j] != (q < 128 * |inp| && inp[q / 128].bits[q % 128]))
  {
    BitLaws();
    forall i, j | 0 <= i < |was| && 0 <= j < 128
      ensures var q := 128 * i + j + shift; now[i].bits[j] == (was[i].bits[j] != (q < 128 * |inp| && inp[q / 128].bits[q % 128]))
    {
      assert now[i] == Xor(was[i], ShiftedBlock(inp, shift, i));
      ShiftedBit(inp, shift, i, j);
    }
  }

  /** Blocks past the input's end are not touched: nothing is shifted into them. */
  lemma AddedAll(was: seq<Block>, now: seq<Block>, inp: seq<Block>, shift: nat, n: nat)
    requires AddedUpTo(was, now, inp, shift, n) && (n >= |inp| || n >= |was|)
    ensures AddedUpTo(was, now, inp, shift, |was|)
  {
    forall i | n <= i < |was| ensures now[i] == Xor(was[i], ShiftedBlock(inp, shift, i)) {
      BeyondEnd(inp, shift, i);
      XorSelf(was[i]);
    }
  }

  lemma XorTwice(d: Block, a: Block, b: Block)
    ensures Xor(Xor(d, a), b) == Xor(d, Xor(a, b))
  {
    XorAssoc(d, a, b);
  }

  method ShiftHigh(dest: array<Block>, inp: seq<Block>, n: nat)
    requires inp != [] && n < 64
    modifies dest
    ensures AddedUpTo(old(dest[..]), dest[..], inp, 64 + n, dest.Length)
  {
    var end := Min(dest.Length, |inp| - 1);
    var i := 0;
    while i < end
      invariant 0 <= i <= end && AddedUpTo(old(dest[..]), dest[..], inp, 64 + n, i)
    {
      var b0, b1 := ShrLanes(Load(inp, 2 * i + 1), n), ShlLanes(Load(inp, 2 * i + 2), 64 - n);
      HighWindow(inp, i, n);
      XorTwice(dest[i], b0, b1);
      dest[i] := Xor(Xor(dest[i], b0), b1);
      i := i + 1;
    }
    if end != dest.Length {
      HighTail(inp, n, end);
      dest[end] := Xor(dest[end], LowHalf(ShrLanes(LoadWord(inp, 2 * end + 1), n)));
      AddedAll(old(dest[..]), dest[..], inp, 64 + n, end + 1);
    }
  }

  method ShiftLow(dest: array<Block>, inp: seq<Block>, n: nat)
    requires inp != [] && 0 < n < 64
    modifies dest
    ensures AddedUpTo(old(dest[..]), dest[..], inp, n, dest.Length)
  {
    var end := Min(dest.Length, |inp| - 1);
    var i := 0;
    while i < end
      invariant 0 <= i <= end && AddedUpTo(old(dest[..]), dest[..], inp, n, i)
    {
      var b0, b1 := ShrLanes(Load(inp, 2 * i), n), ShlLanes(Load(inp, 2 * i + 1), 64 - n);
      LowWindow(inp, i, n);
      XorTwice(dest[i], b0, b1);
      dest[i] := Xor(Xor(dest[i], b0), b1);
      i := i + 1;
    }
    if end != dest.Length {
      var b0, b1 := ShrLanes(Load(inp, 2 * end), n), LowHalf(ShlLanes(LoadWord(inp, 2 * end + 1), 64 - n));
      LowTail(inp, n, end);
      XorTwice(dest[end], b0, b1);
      dest[end] := Xor(dest[end], b0);
      dest[end] := Xor(dest[end], b1);
      AddedAll(old(dest[..]), dest[..], inp, n, end + 1);
    }
  }

  method ShiftNone(dest: array<Block>, inp: seq<Block>)
    modifies dest
    ensures AddedUpTo(old(dest[..]), dest[..], inp, 0, dest.Length)
  {
    var end := Min(dest.Length, |inp|);
    var i := 0;
    while i < end
      invariant 0 <= i <= end && AddedUpTo(old(dest[..]), dest[..], inp, 0, i)
    {
      NoShift(inp, i);
      dest[i] := Xor(dest[i], inp[i]);
      i := i + 1;
    }
    AddedAll(old(dest[..]), dest[..], inp, 0, end);
  }

  /** Adds the input, shifted down by `shift` bits, to the destination; refused for shifts above 127. */
  method BitShiftXor(dest: array<Block>, inp: seq<Block>, shift: nat) returns (ok: bool)
    requires inp != []
    modifies dest
    ensures ok == (shift <= 127)
    ensures if ok then AddedUpTo(old(dest[..]), dest[..], inp, shift, dest.Length) else dest[..] == old(dest[..])
    ensures ok ==> forall i, j :: 0 <= i < dest.Length && 0 <= j < 128 ==> var q := 128 * i + j + shift;
              dest[i].bits[j] == (old(dest[..])[i].bits[j] != (q < 128 * |inp| && inp[q / 128].bits[q % 128]))
  {
    if shift > 127 {
      return false;
    }
    if shift >= 64 {
      ShiftHigh(dest, inp, shift - 64);
    } else if shift != 0 {
      ShiftLow(dest, inp, shift);
    } else {
      ShiftNone(dest, inp);
    }
    ok := true;
    AddedBits(old(dest[..]), dest[..], inp, shift);
  }
}
