/** 64-bit words as bit sequences, powers of two, integer logarithms and division. */
module Words {

  /** A `u64`; bit 0 is the least significant bit. */
  type Word = s: seq<bool> | |s| == 64 witness seq(64, i => false)

  function XorWord(a: Word, b: Word): (r: Word)
    ensures forall i :: 0 <= i < 64 ==> r[i] == (a[i] != b[i])
  {
    seq(64, i requires 0 <= i < 64 => a[i] != b[i])
  }

  function Pow2(n: nat): (r: nat)
    ensures r > 0
  {
    if n == 0 then 1 else 2 * Pow2(n - 1)
  }

  lemma {:induction false} Pow2Monotone(a: nat, b: nat)
    requires a <= b
    ensures Pow2(a) <= Pow2(b)
  {
    if a < b {
      Pow2Monotone(a, b - 1);
    }
  }

  lemma {:induction false} Pow2Add(a: nat, b: nat)
    ensures Pow2(a + b) == Pow2(a) * Pow2(b)
  {
    if a > 0 {
      Pow2Add(a - 1, b);
    }
  }

  /** The number held by the low `n` bits. */
  function Value(w: seq<bool>, n: nat): nat
    requires n <= |w|
  {
    if n == 0 then 0 else Value(w, n - 1) + if w[n - 1] then Pow2(n - 1) else 0
  }

  /** `log2ceil`: the least `d` with `n <= 2^d`. */
  function Log2Ceil(n: nat): (d: nat)
    requires n > 0
    ensures n <= Pow2(d)
    ensures d > 0 ==> Pow2(d - 1) < n
  {
    if n == 1 then 0 else Log2Ceil((n + 1) / 2) + 1
  }

  /** That `d` is unique. */
  lemma {:induction false} Log2CeilUnique(n: nat, d: nat)
    requires n > 0 && n <= Pow2(d) && (d > 0 ==> Pow2(d - 1) < n)
    ensures Log2Ceil(n) == d
  {
    var e := Log2Ceil(n);
    if e < d {
      Pow2Monotone(e, d - 1);
    } else if d < e {
      Pow2Monotone(d, e - 1);
    }
  }

  lemma IndexSplit(arity: nat, n: nat, i: nat)
    requires arity > 0 && i < arity * n
    ensures 0 <= i / arity < n && 0 <= i % arity < arity
    ensures i == arity * (i / arity) + i % arity
  {
  }

  lemma MulMonotone(m: nat, a: int, b: int)
    requires a <= b
    ensures m * a <= m * b
  {
  }

  lemma DivUnique(m: nat, i: nat, q: nat, r: nat)
    requires r < m && i == m * q + r
    ensures i / m == q && i % m == r
  {
    var q', r' := i / m, i % m;
    assert i == m * q' + r' && 0 <= r' < m;
    assert m * (q - q') == r' - r;
    if q < q' {
      MulMonotone(m, q - q', -1);
      assert false;
    } else if q > q' {
      MulMonotone(m, 1, q - q');
      assert false;
    }
  }

  lemma IndexJoin(arity: nat, n: nat, p: nat, j: nat)
    requires p < n && j < arity
    ensures 0 <= arity * p + j < arity * n
    ensures (arity * p + j) / arity == p && (arity * p + j) % arity == j
  {
    MulMonotone(arity, p + 1, n);
    DivUnique(arity, arity * p + j, p, j);
  }

  function AndWord(a: Word, b: Word): (r: Word)
    ensures forall i :: 0 <= i < 64 ==> r[i] == (a[i] && b[i])
  {
    seq(64, i requires 0 <= i < 64 => a[i] && b[i])
  }

  function OrWord(a: Word, b: Word): (r: Word)
    ensures forall i :: 0 <= i < 64 ==> r[i] == (a[i] || b[i])
  {
    seq(64, i requires 0 <= i < 64 => a[i] || b[i])
  }

  function ZeroWord(): (r: Word)
    ensures forall i :: 0 <= i < 64 ==> !r[i]
  {
    seq(64, i => false)
  }

  /** The word 0 or 1. */
  function BitWord(t: bool): (r: Word)
    ensures r[0] == t && forall i :: 1 <= i < 64 ==> !r[i]
  {
    seq(64, i => i == 0 && t)
  }

  lemma SameWord(a: Word, b: Word)
    requires forall i :: 0 <= i < 64 ==> a[i] == b[i]
    ensures a == b
  {
  }

  lemma XorWordSwap(a: Word, b: Word, c: Word, d: Word)
    ensures XorWord(XorWord(a, b), XorWord(c, d)) == XorWord(XorWord(a, c), XorWord(b, d))
  {
    SameWord(XorWord(XorWord(a, b), XorWord(c, d)), XorWord(XorWord(a, c), XorWord(b, d)));
  }

  lemma OrFromXorAnd(a: Word, b: Word)
    ensures XorWord(XorWord(a, b), AndWord(a, b)) == OrWord(a, b)
  {
    SameWord(XorWord(XorWord(a, b), AndWord(a, b)), OrWord(a, b));
  }

  lemma BitWords(s: bool, t: bool)
    ensures XorWord(BitWord(s), BitWord(t)) == BitWord(s != t)
    ensures OrWord(BitWord(s), BitWord(t)) == BitWord(s || t)
  {
    SameWord(XorWord(BitWord(s), BitWord(t)), BitWord(s != t));
    SameWord(OrWord(BitWord(s), BitWord(t)), BitWord(s || t));
  }

  /** `(x & (y ^ Y_tilde)) ^ (Y & X_tilde) ^ gamma`: a worker's share of a conjunction. */
  function AndShare(x: Word, y: Word, b: Word, xt: Word, yt: Word, g: Word): Word {
    XorWord(XorWord(AndWord(x, XorWord(y, yt)), AndWord(b, xt)), g)
  }

  /** The shared conjunction, with the dealer's `gamma_i = a_i & b_(1-i)`. */
  lemma AndShares(x0: Word, y0: Word, a0: Word, b0: Word, x1: Word, y1: Word, a1: Word, b1: Word)
    ensures XorWord(AndShare(x0, y0, b0, XorWord(x1, a1), XorWord(y1, b1), AndWord(a0, b1)),
                    AndShare(x1, y1, b1, XorWord(x0, a0), XorWord(y0, b0), AndWord(a1, b0)))
         == AndWord(XorWord(x0, x1), XorWord(y0, y1))
  {
    var l := XorWord(AndShare(x0, y0, b0, XorWord(x1, a1), XorWord(y1, b1), AndWord(a0, b1)),
                     AndShare(x1, y1, b1, XorWord(x0, a0), XorWord(y0, b0), AndWord(a1, b0)));
    SameWord(l, AndWord(XorWord(x0, x1), XorWord(y0, y1)));
  }
}
