/** `uint64_t` arithmetic, and the identities behind the shared product. */
module Ring64 {

  const MOD: int := 0x1_0000_0000_0000_0000

  type U64 = x: int | 0 <= x < 0x1_0000_0000_0000_0000

  /** The wrap-around of every `uint64_t` operation. */
  function Wrap(a: int): U64 {
    a % 0x1_0000_0000_0000_0000
  }

  function Add(a: U64, b: U64): U64 {
    Wrap(a + b)
  }

  function Sub(a: U64, b: U64): U64 {
    Wrap(a - b)
  }

  function Mul(a: U64, b: U64): U64 {
    Wrap(a * b)
  }

  lemma WrapShift(a: int, b: int, k: int)
    requires a == b + MOD * k
    ensures Wrap(a) == Wrap(b)
  {
  }

  lemma Quotient(a: int)
    ensures a == MOD * (a / MOD) + Wrap(a)
  {
  }

  lemma WrapSum(a: int, b: int)
    ensures Wrap(Wrap(a) + Wrap(b)) == Wrap(a + b)
  {
    Quotient(a);
    Quotient(b);
    WrapShift(a + b, Wrap(a) + Wrap(b), a / MOD + b / MOD);
  }

  lemma WrapDifference(a: int, b: int)
    ensures Wrap(Wrap(a) - Wrap(b)) == Wrap(a - b)
  {
    Quotient(a);
    Quotient(b);
    WrapShift(a - b, Wrap(a) - Wrap(b), a / MOD - b / MOD);
  }

  lemma WrapProduct(a: int, b: int)
    ensures Wrap(Wrap(a) * Wrap(b)) == Wrap(a * b)
  {
    var q, r, p, t := a / MOD, Wrap(a), b / MOD, Wrap(b);
    assert a == MOD * q + r && b == MOD * p + t;
    assert a * b == r * t + MOD * (q * b + r * p) by {
      Expand(MOD, q, r, p, t);
    }
    WrapShift(a * b, r * t, q * b + r * p);
  }

  lemma Expand(m: int, q: int, r: int, p: int, t: int)
    ensures (m * q + r) * (m * p + t) == r * t + m * (q * (m * p + t) + r * p)
  {
  }

  /** The integer that worker `i`'s share of a product is taken from. */
  function ShareTerm(x: int, s: int, b: int, xt: int, g: int): int {
    x * s - b * xt + g
  }

  /** `x * (y + Y_tilde) - Y * X_tilde + gamma` as the worker computes it. */
  function ProductShare(x: U64, y: U64, b: U64, xt: U64, yt: U64, g: U64): U64 {
    Combine(Mul(x, Add(y, yt)), Mul(b, xt), g)
  }

  function Combine(p: U64, q: U64, g: U64): U64 {
    Add(Sub(p, q), g)
  }

  lemma CombineTerms(p: int, q: int, g: int)
    ensures Combine(Wrap(p), Wrap(q), Wrap(g)) == Wrap(p - q + g)
  {
    WrapDifference(p, q);
    WrapSum(p - q, g);
  }

  lemma AddRight(a: U64, b: int)
    ensures Add(a, Wrap(b)) == Wrap(a + b)
  {
    WrapSum(a, b);
  }

  lemma MulRight(a: U64, b: int)
    ensures Mul(a, Wrap(b)) == Wrap(a * b)
  {
    WrapProduct(a, b);
  }

  lemma CombineProducts(x: U64, s: int, b: U64, xt: int, g: int)
    ensures Combine(Mul(x, Wrap(s)), Mul(b, Wrap(xt)), Wrap(g)) == Wrap(ShareTerm(x, s, b, xt, g))
  {
    MulRight(x, s);
    MulRight(b, xt);
    CombineTerms(x * s, b * xt, g);
  }

  lemma ShareIsTerm(x: U64, y: U64, b: U64, s: int, xt: int, yt: U64, g: int)
    requires Add(y, yt) == Wrap(s)
    ensures ProductShare(x, y, b, Wrap(xt), yt, Wrap(g)) == Wrap(ShareTerm(x, s, b, xt, g))
  {
    CombineProducts(x, s, b, xt, g);
  }

  lemma TermsCancel(x0: int, y0: int, a0: int, b0: int, x1: int, y1: int, a1: int, b1: int)
    ensures ShareTerm(x0, y0 + (y1 + b1), b0, x1 + a1, a0 * b1) + ShareTerm(x1, y1 + (y0 + b0), b1, x0 + a0, a1 * b0)
         == (x0 + x1) * (y0 + y1)
  {
    assert x0 * (y0 + (y1 + b1)) == x0 * y0 + x0 * y1 + x0 * b1;
    assert x1 * (y1 + (y0 + b0)) == x1 * y1 + x1 * y0 + x1 * b0;
    assert b0 * (x1 + a1) == b0 * x1 + b0 * a1;
    assert b1 * (x0 + a0) == b1 * x0 + b1 * a0;
    assert (x0 + x1) * (y0 + y1) == x0 * y0 + x0 * y1 + x1 * y0 + x1 * y1;
  }

  /**
   The shared product: worker `i` masks `x_i` with `a_i` and `y_i` with `b_i`, and the dealer's
   `gamma_i` is `a_i * b_(1-i)`. Which of its draws the dealer uses as `a_i` and `b_i` does not matter.
   */
  lemma ProductShares(x0: U64, y0: U64, a0: U64, b0: U64, x1: U64, y1: U64, a1: U64, b1: U64)
    ensures Add(ProductShare(x0, y0, b0, Add(x1, a1), Add(y1, b1), Mul(a0, b1)),
                ProductShare(x1, y1, b1, Add(x0, a0), Add(y0, b0), Mul(a1, b0)))
         == Mul(Add(x0, x1), Add(y0, y1))
  {
    OneShare(x0, y0, a0, b0, x1, y1, a1, b1);
    OneShare(x1, y1, a1, b1, x0, y0, a0, b0);
    SumOfTerms(x0, y0, a0, b0, x1, y1, a1, b1, ShareTerm(x0, y0 + (y1 + b1), b0, x1 + a1, a0 * b1), ShareTerm(x1, y1 + (y0 + b0), b1, x0 + a0, a1 * b0));
  }

  lemma OneShare(x: U64, y: U64, a: U64, b: U64, x': U64, y': U64, a': U64, b': U64)
    ensures ProductShare(x, y, b, Add(x', a'), Add(y', b'), Mul(a, b')) == Wrap(ShareTerm(x, y + (y' + b'), b, x' + a', a * b'))
  {
    AddRight(y, y' + b');
    ShareIsTerm(x, y, b, y + (y' + b'), x' + a', Add(y', b'), a * b');
  }

  lemma SumOfTerms(x0: U64, y0: U64, a0: U64, b0: U64, x1: U64, y1: U64, a1: U64, b1: U64, t0: int, t1: int)
    requires t0 == ShareTerm(x0, y0 + (y1 + b1), b0, x1 + a1, a0 * b1) && t1 == ShareTerm(x1, y1 + (y0 + b0), b1, x0 + a0, a1 * b0)
    ensures Add(Wrap(t0), Wrap(t1)) == Mul(Add(x0, x1), Add(y0, y1))
  {
    TermsCancel(x0, y0, a0, b0, x1, y1, a1, b1);
    SumIsProduct(x0, x1, y0, y1, t0, t1);
  }

  lemma SumIsProduct(x0: U64, x1: U64, y0: U64, y1: U64, t0: int, t1: int)
    requires t0 + t1 == (x0 + x1) * (y0 + y1)
    ensures Add(Wrap(t0), Wrap(t1)) == Mul(Add(x0, x1), Add(y0, y1))
  {
    WrapSum(t0, t1);
    WrapProduct(x0 + x1, y0 + y1);
  }

  /** The dot product of two vectors of words. */
  function Dot(a: seq<U64>, b: seq<U64>): U64
    requires |a| == |b|
  {
    if a == [] then 0 else Add(Dot(a[..|a| - 1], b[..|b| - 1]), Mul(a[|a| - 1], b[|b| - 1]))
  }

  /** The inner product over the integers. */
  function SumOfProducts(a: seq<U64>, b: seq<U64>): int
    requires |a| == |b|
  {
    if a == [] then 0 else a[0] * b[0] + SumOfProducts(a[1..], b[1..])
  }

  lemma {:induction false} SumLast(a: seq<U64>, b: seq<U64>, n: nat)
    requires |a| == |b| == n + 1
    ensures SumOfProducts(a, b) == SumOfProducts(a[..n], b[..n]) + (a[n] as int) * b[n]
    decreases n
  {
    if n > 0 {
      SumLast(a[1..], b[1..], n - 1);
      assert a[1..][..n - 1] == a[..n][1..] && b[1..][..n - 1] == b[..n][1..];
    }
  }

  lemma AddProduct(sum: int, x: U64, y: U64, next: int)
    requires next == sum + (x as int) * y
    ensures Add(Wrap(sum), Mul(x, y)) == Wrap(next)
  {
    WrapSum(sum, (x as int) * y);
  }

  /** The dot product of words is the inner product modulo 2^64. */
  lemma {:induction false} DotIsSum(a: seq<U64>, b: seq<U64>)
    requires |a| == |b|
    ensures Dot(a, b) == Wrap(SumOfProducts(a, b))
    decreases |a|
  {
    if a != [] {
      var n := |a| - 1;
      DotIsSum(a[..n], b[..n]);
      SumLast(a, b, n);
      AddProduct(SumOfProducts(a[..n], b[..n]), a[n], b[n], SumOfProducts(a, b));
    }
  }

  function AddAll(a: seq<U64>, b: seq<U64>): (r: seq<U64>)
    requires |a| == |b|
    ensures |r| == |a|
  {
    seq(|a|, i requires 0 <= i < |a| => Add(a[i], b[i]))
  }

  lemma AddAllInit(a: seq<U64>, b: seq<U64>)
    requires |a| == |b| > 0
    ensures AddAll(a, b)[..|a| - 1] == AddAll(a[..|a| - 1], b[..|b| - 1]) && AddAll(a, b)[|a| - 1] == Add(a[|a| - 1], b[|a| - 1])
  {
  }

  /** The accumulator loop of the vector product. */
  method DotLoop(a: seq<U64>, b: seq<U64>) returns (acc: U64)
    requires |a| == |b|
    ensures acc == Dot(a, b) == SumOfProducts(a, b) % 0x1_0000_0000_0000_0000
  {
    acc := 0;
    var i := 0;
    while i < |a|
      invariant 0 <= i <= |a|
      invariant acc == Dot(a[..i], b[..i])
    {
      assert a[..i + 1][..i] == a[..i] && b[..i + 1][..i] == b[..i];
      acc := Add(acc, Mul(a[i], b[i]));
      i := i + 1;
    }
    assert a[..i] == a && b[..i] == b;
    DotIsSum(a, b);
  }

  /** `x * (y + Y_tilde) - Y * X_tilde + gamma` on vectors. */
  function VectorShare(x: seq<U64>, y: seq<U64>, b: seq<U64>, xt: seq<U64>, yt: seq<U64>, g: U64): U64
    requires |x| == |y| == |b| == |xt| == |yt|
  {
    Combine(Dot(x, AddAll(y, yt)), Dot(b, xt), g)
  }

  lemma AddAddIs(a: U64, b: U64, c: U64, d: U64)
    ensures Add(Add(a, b), Add(c, d)) == Wrap(a + b + c + d)
  {
    WrapSum(a + b, c + d);
  }

  lemma AddSwap(a: U64, b: U64, c: U64, d: U64)
    ensures Add(Add(a, b), Add(c, d)) == Add(Add(a, c), Add(b, d))
  {
    AddAddIs(a, b, c, d);
    AddAddIs(a, c, b, d);
  }

  lemma SubAddIs(a: U64, b: U64, c: U64, d: U64)
    ensures Sub(Add(a, b), Add(c, d)) == Wrap(a + b - c - d)
  {
    WrapDifference(a + b, c + d);
  }

  lemma AddSubIs(a: U64, b: U64, c: U64, d: U64)
    ensures Add(Sub(a, c), Sub(b, d)) == Wrap(a + b - c - d)
  {
    WrapSum(a - c, b - d);
  }

  /** One more entry adds one product share. */
  lemma Rearrange(p: U64, p1: U64, q: U64, q1: U64, g: U64, g1: U64)
    ensures Combine(Add(p, p1), Add(q, q1), Add(g, g1)) == Add(Combine(p, q, g), Combine(p1, q1, g1))
  {
    SubAddIs(p, p1, q, q1);
    AddSubIs(p, p1, q, q1);
    AddSwap(Sub(p, q), Sub(p1, q1), g, g1);
  }

  lemma VectorShareLast(x: seq<U64>, y: seq<U64>, b: seq<U64>, xt: seq<U64>, yt: seq<U64>, g: U64, g1: U64, n: nat)
    requires |x| == |y| == |b| == |xt| == |yt| == n + 1
    ensures VectorShare(x, y, b, xt, yt, Add(g, g1))
         == Add(VectorShare(x[..n], y[..n], b[..n], xt[..n], yt[..n], g), ProductShare(x[n], y[n], b[n], xt[n], yt[n], g1))
  {
    AddAllInit(y, yt);
    Rearrange(Dot(x[..n], AddAll(y[..n], yt[..n])), Mul(x[n], Add(y[n], yt[n])), Dot(b[..n], xt[..n]), Mul(b[n], xt[n]), g, g1);
  }

  /** The shared dot product, entry by entry the shared product. */
  lemma {:induction false} DotShares(x0: seq<U64>, y0: seq<U64>, a0: seq<U64>, b0: seq<U64>, x1: seq<U64>, y1: seq<U64>, a1: seq<U64>, b1: seq<U64>)
    requires |x0| == |y0| == |a0| == |b0| == |x1| == |y1| == |a1| == |b1|
    ensures Add(VectorShare(x0, y0, b0, AddAll(x1, a1), AddAll(y1, b1), Dot(a0, b1)),
                VectorShare(x1, y1, b1, AddAll(x0, a0), AddAll(y0, b0), Dot(a1, b0)))
         == Dot(AddAll(x0, x1), AddAll(y0, y1))
    decreases |x0|
  {
    if x0 != [] {
      var n := |x0| - 1;
      DotShares(x0[..n], y0[..n], a0[..n], b0[..n], x1[..n], y1[..n], a1[..n], b1[..n]);
      LastEntries(x0, y0, a0, b0, x1, y1, a1, b1, n);
    }
  }

  lemma LastEntries(x0: seq<U64>, y0: seq<U64>, a0: seq<U64>, b0: seq<U64>, x1: seq<U64>, y1: seq<U64>, a1: seq<U64>, b1: seq<U64>, n: nat)
    requires |x0| == |y0| == |a0| == |b0| == |x1| == |y1| == |a1| == |b1| == n + 1
    requires Add(VectorShare(x0[..n], y0[..n], b0[..n], AddAll(x1[..n], a1[..n]), AddAll(y1[..n], b1[..n]), Dot(a0[..n], b1[..n])),
                 VectorShare(x1[..n], y1[..n], b1[..n], AddAll(x0[..n], a0[..n]), AddAll(y0[..n], b0[..n]), Dot(a1[..n], b0[..n])))
          == Dot(AddAll(x0[..n], x1[..n]), AddAll(y0[..n], y1[..n]))
    ensures Add(VectorShare(x0, y0, b0, AddAll(x1, a1), AddAll(y1, b1), Dot(a0, b1)),
                VectorShare(x1, y1, b1, AddAll(x0, a0), AddAll(y0, b0), Dot(a1, b0)))
         == Dot(AddAll(x0, x1), AddAll(y0, y1))
  {
    OneVector(x0, y0, a0, b0, x1, y1, a1, b1, n);
    OneVector(x1, y1, a1, b1, x0, y0, a0, b0, n);
    var v0 := VectorShare(x0[..n], y0[..n], b0[..n], AddAll(x1[..n], a1[..n]), AddAll(y1[..n], b1[..n]), Dot(a0[..n], b1[..n]));
    var v1 := VectorShare(x1[..n], y1[..n], b1[..n], AddAll(x0[..n], a0[..n]), AddAll(y0[..n], b0[..n]), Dot(a1[..n], b0[..n]));
    var e0 := ProductShare(x0[n], y0[n], b0[n], Add(x1[n], a1[n]), Add(y1[n], b1[n]), Mul(a0[n], b1[n]));
    var e1 := ProductShare(x1[n], y1[n], b1[n], Add(x0[n], a0[n]), Add(y0[n], b0[n]), Mul(a1[n], b0[n]));
    AddSwap(v0, e0, v1, e1);
    ProductShares(x0[n], y0[n], a0[n], b0[n], x1[n], y1[n], a1[n], b1[n]);
    AddAllInit(x0, x1);
    AddAllInit(y0, y1);
  }

  lemma OneVector(x: seq<U64>, y: seq<U64>, a: seq<U64>, b: seq<U64>, x': seq<U64>, y': seq<U64>, a': seq<U64>, b': seq<U64>, n: nat)
    requires |x| == |y| == |a| == |b| == |x'| == |y'| == |a'| == |b'| == n + 1
    ensures VectorShare(x, y, b, AddAll(x', a'), AddAll(y', b'), Dot(a, b'))
         == Add(VectorShare(x[..n], y[..n], b[..n], AddAll(x'[..n], a'[..n]), AddAll(y'[..n], b'[..n]), Dot(a[..n], b'[..n])),
                ProductShare(x[n], y[n], b[n], Add(x'[n], a'[n]), Add(y'[n], b'[n]), Mul(a[n], b'[n])))
  {
    AddAllInit(x', a');
    AddAllInit(y', b');
    VectorShareLast(x, y, b, AddAll(x', a'), AddAll(y', b'), Dot(a[..n], b'[..n]), Mul(a[n], b'[n]), n);
  }
}
