/** `QuasiCyclicCode::modp`: reduction of a bit string modulo x^p - 1. */
module ModP {
  import opened Blocks
  import opened Words
  import opened BitFold

  /** Bit `begin + k` of the input, or zero beyond its end. */
  predicate Term(inp: seq<Block>, begin: nat, k: nat) {
    begin + k < 128 * |inp| && FlatBit(inp, begin + k)
  }

  /** Where period `m` starts: `m * p`. */
  function Start(p: nat, m: nat): nat {
    if m == 0 then 0 else Start(p, m - 1) + p
  }

  lemma {:induction false} StartIs(p: nat, m: nat)
    ensures Start(p, m) == p * m
  {
    if m > 0 {
      StartIs(p, m - 1);
      assert p * m == p * (m - 1) + p;
    }
  }

  /** The XOR of the first `m` input bits whose position is `k` modulo `p`. */
  predicate FoldBit(inp: seq<Block>, p: nat, k: nat, m: nat) {
    m > 0 && FoldBit(inp, p, k, m - 1) != Term(inp, Start(p, m - 1), k)
  }

  /** The first `p` bits of `s` are folded over `m` periods of the input. */
  ghost predicate Folded(s: seq<Block>, inp: seq<Block>, p: nat, m: nat) {
    p <= 128 * |s| && forall k :: 0 <= k < p ==> FlatBit(s, k) == FoldBit(inp, p, k, m)
  }

  /** `memcpy` of a bit prefix. */
  method CopyBits(dest: array<Block>, inp: seq<Block>, n: nat)
    requires n <= 128 * dest.Length && n <= 128 * |inp|
    modifies dest
    ensures forall k :: 0 <= k < n ==> FlatBit(dest[..], k) == FlatBit(inp, k)
  {
    var i := 0;
    while i < dest.Length
      invariant 0 <= i <= dest.Length
      invariant forall q :: 0 <= q < i ==> Merged(dest[q], inp, q, n)
    {
      var d := dest[i];
      dest[i] := Block(seq(128, j requires 0 <= j < 128 => if 128 * i + j < n then FlatBit(inp, 128 * i + j) else d.bits[j]));
      i := i + 1;
    }
    forall k | 0 <= k < n ensures FlatBit(dest[..], k) == FlatBit(inp, k) {
      assert Merged(dest[k / 128], inp, k / 128, n);
    }
  }

  ghost predicate Merged(b: Block, inp: seq<Block>, q: nat, n: nat)
    requires n <= 128 * |inp|
  {
    forall j :: 0 <= j < 128 ==> 128 * q + j < n ==> b.bits[j] == FlatBit(inp, 128 * q + j)
  }

  /** Clears the bits from `lo` to `hi`: the mask on a byte, and `memset`. */
  method ClearBits(dest: array<Block>, lo: nat, hi: nat)
    modifies dest
    ensures forall k :: 0 <= k < 128 * dest.Length ==> FlatBit(dest[..], k) == (FlatBit(old(dest[..]), k) && !(lo <= k < hi))
  {
    ghost var was := dest[..];
    var i := 0;
    while i < dest.Length
      invariant 0 <= i <= dest.Length
      invariant forall q :: i <= q < dest.Length ==> dest[q] == was[q]
      invariant forall q :: 0 <= q < i ==> Cleared(dest[q], was[q], q, lo, hi)
    {
      var d := dest[i];
      dest[i] := Block(seq(128, j requires 0 <= j < 128 => d.bits[j] && !(lo <= 128 * i + j < hi)));
      i := i + 1;
    }
    forall k | 0 <= k < 128 * dest.Length ensures FlatBit(dest[..], k) == (FlatBit(was, k) && !(lo <= k < hi)) {
      assert Cleared(dest[k / 128], was[k / 128], k / 128, lo, hi);
    }
  }

  ghost predicate Cleared(b: Block, was: Block, q: nat, lo: nat, hi: nat) {
    forall j :: 0 <= j < 128 ==> b.bits[j] == (was.bits[j] && !(lo <= 128 * q + j < hi))
  }

  lemma SliceBit(inp: seq<Block>, b: nat, e: nat, k: nat)
    requires b <= e <= |inp| && k < 128 * (e - b)
    ensures FlatBit(inp[b..e], k) == FlatBit(inp, 128 * b + k)
  {
  }

  /** Shifting the blocks around period `i` lines its bits up with the first period. */
  lemma PeriodTerm(inp: seq<Block>, begin: nat, end: nat, p: nat, k: nat)
    requires begin < 128 * |inp| && k < p && end == Min(begin + p, 128 * |inp|)
    ensures begin / 128 <= (end + 127) / 128 <= |inp| && begin / 128 < (end + 127) / 128
    ensures Shifted(inp[begin / 128..(end + 127) / 128], begin % 128, k) == Term(inp, begin, k)
  {
    var b, e := begin / 128, (end + 127) / 128;
    if k + begin % 128 < 128 * (e - b) {
      SliceBit(inp, b, e, k + begin % 128);
    }
  }

  lemma FoldStep(was: seq<Block>, now: seq<Block>, part: seq<Block>, shift: nat, inp: seq<Block>, p: nat, m: nat, begin: nat)
    requires Folded(was, inp, p, m) && AddedUpTo(was, now, part, shift, |was|) && begin == Start(p, m)
    requires forall k :: 0 <= k < p ==> Shifted(part, shift, k) == Term(inp, begin, k)
    ensures Folded(now, inp, p, m + 1)
  {
    BitLaws();
    forall k | 0 <= k < p ensures FlatBit(now, k) == FoldBit(inp, p, k, m + 1) {
      var i, j := k / 128, k % 128;
      assert now[i] == Xor(was[i], ShiftedBlock(part, shift, i));
      ShiftedBit(part, shift, i, j);
      assert Shifted(part, shift, k) == Term(inp, begin, k);
    }
  }

  /** The number of (possibly partial) periods in the input. */
  function Periods(total: nat, p: nat): nat
    requires p > 0
  {
    (total + p - 1) / p
  }

  lemma CeilBound(total: nat, p: nat, i: nat, q: nat, r: nat)
    requires total + p - 1 == p * q + r && r < p
    ensures p * i < total <==> i < q
  {
    if i < q {
      MulMonotone(p, i + 1, q);
    } else {
      MulMonotone(p, q, i);
    }
  }

  lemma DivMod(a: nat, p: nat)
    requires p > 0
    ensures a == p * (a / p) + a % p && 0 <= a % p < p && a / p >= 0
  {
  }

  /** A period starts inside the input exactly if its number is below that. */
  lemma PeriodStarts(total: nat, p: nat, i: nat)
    requires p > 0
    ensures Start(p, i) < total <==> i < Periods(total, p)
  {
    StartIs(p, i);
    DivMod(total + p - 1, p);
    CeilBound(total, p, i, (total + p - 1) / p, (total + p - 1) % p);
  }

  /** The loop over the periods after the first. */
  method AddPeriods(dest: array<Block>, inp: seq<Block>, p: nat)
    requires 0 < p <= 128 * dest.Length && p <= 128 * |inp| && Folded(dest[..], inp, p, 1)
    modifies dest
    ensures Folded(dest[..], inp, p, Periods(128 * |inp|, p))
  {
    var total := 128 * |inp|;
    var count := (total + p - 1) / p;
    PeriodStarts(total, p, 0);
    var i, begin := 1, p;
    while i < count
      invariant 1 <= i <= count && begin == Start(p, i) && Folded(dest[..], inp, p, i)
    {
      PeriodStarts(total, p, i);
      AddPeriod(dest, inp, p, i, begin);
      i, begin := i + 1, begin + p;
    }
  }

  method AddPeriod(dest: array<Block>, inp: seq<Block>, p: nat, ghost i: nat, begin: nat)
    requires 0 < p && begin == Start(p, i) && begin < 128 * |inp| && Folded(dest[..], inp, p, i)
    modifies dest
    ensures Folded(dest[..], inp, p, i + 1)
  {
    var end := Min(begin + p, 128 * |inp|);
    PeriodTerm(inp, begin, end, p, 0);
    var part := inp[begin / 128..(end + 127) / 128];
    ghost var was := dest[..];
    forall k | 0 <= k < p ensures Shifted(part, begin % 128, k) == Term(inp, begin, k) {
      PeriodTerm(inp, begin, end, p, k);
    }
    var ok := BitShiftXor(dest, part, begin % 128);
    FoldStep(was, dest[..], part, begin % 128, inp, p, i, begin);
  }

  /** What the destination must hold in the end: the folded bits, then zeros. */
  ghost predicate Reduced(s: seq<Block>, inp: seq<Block>, p: nat)
    requires p > 0
  {
    forall k :: 0 <= k < 128 * |s| ==> FlatBit(s, k) == (k < p && FoldBit(inp, p, k, Periods(128 * |inp|, p)))
  }

  /** Whatever the destination held before; refused exactly when either side is shorter than `p` bits. */
  method ModP(dest: array<Block>, inp: seq<Block>, p: nat) returns (ok: bool)
    requires p > 0
    modifies dest
    ensures ok == ((p + 127) / 128 <= dest.Length && (p + 127) / 128 <= |inp|)
    ensures if ok then Reduced(dest[..], inp, p) else dest[..] == old(dest[..])
  {
    var pBlocks, pBytes := (p + 127) / 128, (p + 7) / 8;
    if dest.Length < pBlocks || |inp| < pBlocks {
      return false;
    }
    CopyBits(dest, inp, 8 * pBytes);
    FirstPeriod(dest[..], inp, p);
    AddPeriods(dest, inp, p);
    ghost var folded := dest[..];
    if p % 8 != 0 {
      ClearBits(dest, p, 8 * (p / 8) + 8);
    }
    ghost var masked := dest[..];
    ClearBits(dest, 8 * pBytes, 128 * dest.Length);
    Finished(folded, masked, dest[..], inp, p);
    ok := true;
  }

  lemma FirstPeriod(s: seq<Block>, inp: seq<Block>, p: nat)
    requires p <= 128 * |s| && p <= 128 * |inp| && forall k :: 0 <= k < p ==> FlatBit(s, k) == FlatBit(inp, k)
    ensures Folded(s, inp, p, 1)
  {
    forall k | 0 <= k < p ensures FlatBit(s, k) == FoldBit(inp, p, k, 1) {
      assert !FoldBit(inp, p, k, 0) && Term(inp, Start(p, 0), k) == FlatBit(inp, k);
    }
  }

  lemma Finished(folded: seq<Block>, masked: seq<Block>, s: seq<Block>, inp: seq<Block>, p: nat)
    requires p > 0 && |folded| == |masked| == |s| && Folded(folded, inp, p, Periods(128 * |inp|, p))
    requires forall k :: 0 <= k < 128 * |s| ==> FlatBit(masked, k) == (FlatBit(folded, k) && !(p % 8 != 0 && p <= k < 8 * (p / 8) + 8))
    requires forall k :: 0 <= k < 128 * |s| ==> FlatBit(s, k) == (FlatBit(masked, k) && !(8 * ((p + 7) / 8) <= k < 128 * |s|))
    ensures Reduced(s, inp, p)
  {
    WholeBytes(p);
    forall k | 0 <= k < 128 * |s| ensures FlatBit(s, k) == (k < p && FoldBit(inp, p, k, Periods(128 * |inp|, p))) {
      assert FlatBit(s, k) == (FlatBit(masked, k) && k < 8 * ((p + 7) / 8));
      assert FlatBit(masked, k) == (FlatBit(folded, k) && !(p % 8 != 0 && p <= k < 8 * (p / 8) + 8));
    }
  }

  lemma WholeBytes(p: nat)
    ensures 8 * ((p + 7) / 8) == if p % 8 == 0 then p else 8 * (p / 8) + 8
    ensures p <= 8 * ((p + 7) / 8)
  {
  }

  // ---------------------------------------------------------------- what folding means

  /** The input is the single monomial x^n. */
  ghost predicate Monomial(inp: seq<Block>, n: nat) {
    n < 128 * |inp| && forall k :: 0 <= k < 128 * |inp| ==> FlatBit(inp, k) == (k == n)
  }

  lemma MonomialTerm(inp: seq<Block>, n: nat, begin: nat, k: nat)
    requires Monomial(inp, n)
    ensures Term(inp, begin, k) == (begin + k == n)
  {
  }

  /** Quotient and remainder are unique. */
  lemma SamePosition(p: nat, i: nat, k: nat, q: nat, r: nat)
    requires k < p && r < p
    ensures Start(p, i) + k == Start(p, q) + r <==> i == q && k == r
  {
    StartIs(p, i);
    StartIs(p, q);
    if Start(p, i) + k == Start(p, q) + r {
      DivUnique(p, Start(p, i) + k, i, k);
      DivUnique(p, Start(p, i) + k, q, r);
    }
  }

  lemma {:induction false} MonomialUpTo(inp: seq<Block>, n: nat, p: nat, k: nat, m: nat, q: nat, r: nat)
    requires Monomial(inp, n) && k < p && r < p && n == Start(p, q) + r
    ensures FoldBit(inp, p, k, m) == (k == r && q < m)
    decreases m
  {
    if m > 0 {
      MonomialUpTo(inp, n, p, k, m - 1, q, r);
      MonomialTerm(inp, n, Start(p, m - 1), k);
      SamePosition(p, m - 1, k, q, r);
    }
  }

  /** x^n is reduced to x^(n mod p). */
  lemma MonomialReduces(inp: seq<Block>, n: nat, p: nat, k: nat)
    requires Monomial(inp, n) && p > 0 && k < p
    ensures FoldBit(inp, p, k, Periods(128 * |inp|, p)) == (k == n % p)
  {
    var q, r := n / p, n % p;
    assert n == p * q + r;
    StartIs(p, q);
    MonomialAt(inp, n, p, k, q, r);
  }

  lemma MonomialAt(inp: seq<Block>, n: nat, p: nat, k: nat, q: nat, r: nat)
    requires Monomial(inp, n) && k < p && r < p && n == Start(p, q) + r
    ensures FoldBit(inp, p, k, Periods(128 * |inp|, p)) == (k == r)
  {
    MonomialUpTo(inp, n, p, k, Periods(128 * |inp|, p), q, r);
    PeriodStarts(128 * |inp|, p, q);
  }

  ghost predicate Sum(c: seq<Block>, a: seq<Block>, b: seq<Block>) {
    |a| == |b| == |c| && forall k :: 0 <= k < 128 * |c| ==> FlatBit(c, k) == (FlatBit(a, k) != FlatBit(b, k))
  }

  lemma TermAdds(a: seq<Block>, b: seq<Block>, c: seq<Block>, begin: nat, k: nat)
    requires Sum(c, a, b)
    ensures Term(c, begin, k) == (Term(a, begin, k) != Term(b, begin, k))
  {
  }

  /** Reduction is additive, so it is determined by the monomials. */
  lemma {:induction false} FoldAdds(a: seq<Block>, b: seq<Block>, c: seq<Block>, p: nat, k: nat, m: nat)
    requires Sum(c, a, b)
    ensures FoldBit(c, p, k, m) == (FoldBit(a, p, k, m) != FoldBit(b, p, k, m))
  {
    if m > 0 {
      FoldAdds(a, b, c, p, k, m - 1);
      TermAdds(a, b, c, Start(p, m - 1), k);
    }
  }

  /** `x^n` becomes `x^(n mod p)`, on what the destination holds. */
  lemma ReducedMonomial(s: seq<Block>, inp: seq<Block>, p: nat, n: nat)
    requires p > 0 && Reduced(s, inp, p) && n < 128 * |inp|
    requires forall k :: 0 <= k < 128 * |inp| ==> inp[k / 128].bits[k % 128] == (k == n)
    ensures forall k :: 0 <= k < 128 * |s| ==> s[k / 128].bits[k % 128] == (k == n % p)
  {
    assert Monomial(inp, n);
    forall k | 0 <= k < 128 * |s| ensures s[k / 128].bits[k % 128] == (k == n % p) {
      assert FlatBit(s, k) == (k < p && FoldBit(inp, p, k, Periods(128 * |inp|, p)));
      if k < p {
        MonomialReduces(inp, n, p, k);
      }
    }
  }

  /** Sums of inputs become sums of results. */
  lemma ReducedSum(sa: seq<Block>, a: seq<Block>, sb: seq<Block>, b: seq<Block>, sc: seq<Block>, c: seq<Block>, p: nat)
    requires p > 0 && Reduced(sa, a, p) && Reduced(sb, b, p) && Reduced(sc, c, p) && |sa| == |sb| == |sc| && |a| == |b| == |c|
    requires forall k :: 0 <= k < 128 * |c| ==> c[k / 128].bits[k % 128] == (a[k / 128].bits[k % 128] != b[k / 128].bits[k % 128])
    ensures forall k :: 0 <= k < 128 * |sc| ==> sc[k / 128].bits[k % 128] == (sa[k / 128].bits[k % 128] != sb[k / 128].bits[k % 128])
  {
    forall k | 0 <= k < 128 * |c| ensures FlatBit(c, k) == (FlatBit(a, k) != FlatBit(b, k)) {
      assert c[k / 128].bits[k % 128] == (a[k / 128].bits[k % 128] != b[k / 128].bits[k % 128]);
    }
    forall k | 0 <= k < 128 * |sc| ensures sc[k / 128].bits[k % 128] == (sa[k / 128].bits[k % 128] != sb[k / 128].bits[k % 128]) {
      assert FlatBit(sa, k) == (k < p && FoldBit(a, p, k, Periods(128 * |a|, p)));
      assert FlatBit(sb, k) == (k < p && FoldBit(b, p, k, Periods(128 * |b|, p)));
      assert FlatBit(sc, k) == (k < p && FoldBit(c, p, k, Periods(128 * |c|, p)));
      FoldAdds(a, b, c, p, k, Periods(128 * |c|, p));
    }
  }
}
