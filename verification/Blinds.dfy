/** Blinded dot products of mpc/dpf/dpf.cpp, whose blinds are refreshed by additive update vectors. */
module Blinds {
  import opened Ring64

  type Vec = seq<U64>

  function SubAll(a: Vec, b: Vec): (r: Vec)
    requires |a| == |b|
    ensures |r| == |a|
  {
    seq<U64>(|a|, i requires 0 <= i < |a| => Sub(a[i], b[i]))
  }

  lemma {:induction false} DotAdds(x: Vec, a: Vec, b: Vec)
    requires |x| == |a| == |b|
    ensures Dot(x, AddAll(a, b)) == Add(Dot(x, a), Dot(x, b))
  {
    if x != [] {
      var n := |x| - 1;
      DotAdds(x[..n], a[..n], b[..n]);
      AddAllInit(a, b);
      MulAdds(x[n], a[n], b[n]);
      AddSwap(Dot(x[..n], a[..n]), Dot(x[..n], b[..n]), Mul(x[n], a[n]), Mul(x[n], b[n]));
    }
  }

  lemma MulAdds(x: U64, a: U64, b: U64)
    ensures Mul(x, Add(a, b)) == Add(Mul(x, a), Mul(x, b))
  {
    MulRight(x, a + b);
    WrapSum(x * a, x * b);
    Distribute(x, a, b);
  }

  lemma Distribute(x: int, a: int, b: int)
    ensures x * (a + b) == x * a + x * b
  {
  }

  /** `s` at position `t`, zero elsewhere. */
  function Unit(n: nat, t: nat, s: U64): (r: Vec)
    ensures |r| == n
  {
    seq<U64>(n, i => if i == t then s else 0)
  }

  lemma MulZero(x: U64)
    ensures Mul(x, 0) == 0
  {
  }

  lemma {:induction false} DotZeros(x: Vec, z: Vec)
    requires |x| == |z| && forall i :: 0 <= i < |z| ==> z[i] == 0
    ensures Dot(x, z) == 0
  {
    if x != [] {
      DotZeros(x[..|x| - 1], z[..|z| - 1]);
      MulZero(x[|x| - 1]);
    }
  }

  lemma AddZero(a: U64)
    ensures Add(0, a) == a && Add(a, 0) == a
  {
  }

  lemma {:induction false} DotUnit(x: Vec, t: nat, s: U64)
    requires t < |x|
    ensures Dot(x, Unit(|x|, t, s)) == Mul(x[t], s)
  {
    var n := |x| - 1;
    var u := Unit(|x|, t, s);
    AddZero(Mul(x[t], s));
    if t == n {
      DotZeros(x[..n], u[..n]);
    } else {
      DotUnit(x[..n], t, s);
      assert u[..n] == Unit(n, t, s);
      MulZero(x[n]);
    }
  }

  // ---------------------------------------------------------------- refresh

  /** `refresh_blinds`: the update goes into the share and out of its blind; the published sum stays. */
  method RefreshBlinds(share: array<U64>, published: array<U64>, blind: array<U64>, update: Vec, other: Vec)
    requires share != published && share != blind && published != blind
    requires share.Length == published.Length == blind.Length == |update| == |other|
    modifies share, published, blind
    ensures share[..] == AddAll(old(share[..]), update) && blind[..] == SubAll(old(blind[..]), update) && published[..] == old(published[..])
  {
    var j := 0;
    while j < |update|
      invariant 0 <= j <= |update|
      invariant forall i :: 0 <= i < |update| ==> share[i] == if i < j then Add(old(share[i]), update[i]) else old(share[i])
      invariant forall i :: 0 <= i < |update| ==> blind[i] == if i < j then Sub(old(blind[i]), update[i]) else old(blind[i])
      invariant forall i :: 0 <= i < |update| ==> published[i] == old(published[i])
    {
      share[j] := Add(share[j], update[j]);
      blind[j] := Sub(blind[j], update[j]);
      SubThenAdd(published[j], other[j]);
      published[j] := Add(Sub(published[j], other[j]), other[j]);
      j := j + 1;
    }
    assert share[..] == AddAll(old(share[..]), update);
    assert blind[..] == SubAll(old(blind[..]), update);
  }

  lemma SubThenAdd(a: U64, b: U64)
    ensures Add(Sub(a, b), b) == a
  {
    WrapSum(a - b, b);
  }

  /** Shares of a vector, their blinds and published sums, and the cancellation terms for a database blinded by `x0`, `x1`. */
  datatype Shares = Shares(e0: Vec, e1: Vec, y0: Vec, y1: Vec, tilde0: Vec, tilde1: Vec, c0: U64, c1: U64)

  predicate Sized(s: Shares, n: nat) {
    |s.e0| == |s.e1| == |s.y0| == |s.y1| == |s.tilde0| == |s.tilde1| == n
  }

  /** Share plus blind is what was published, and the cancellation terms sum to `x0 * y1 + x1 * y0`. */
  predicate Sound(s: Shares, x0: Vec, x1: Vec) {
    && |x0| == |x1| && Sized(s, |x0|)
    && s.tilde0 == AddAll(s.e0, s.y0) && s.tilde1 == AddAll(s.e1, s.y1)
    && Add(s.c0, s.c1) == Add(Dot(x0, s.y1), Dot(x1, s.y0))
  }

  /** An update: shares of a vector that is `s` at `t` and zero elsewhere. */
  datatype Update = Update(f0: Vec, f1: Vec, t: nat, s: U64)

  predicate IsUpdate(u: Update, n: nat) {
    |u.f0| == |u.f1| == n && u.t < n && AddAll(u.f0, u.f1) == Unit(n, u.t, u.s)
  }

  /** Both parties refresh, and correct their cancellation terms by what they know of the update. */
  function Refreshed(s: Shares, x0: Vec, x1: Vec, u: Update): Shares
    requires |x0| == |x1| && Sized(s, |x0|) && IsUpdate(u, |x0|)
  {
    Shares(AddAll(s.e0, u.f0), AddAll(s.e1, u.f1), SubAll(s.y0, u.f0), SubAll(s.y1, u.f1), s.tilde0, s.tilde1,
           Add(Sub(s.c0, Mul(x0[u.t], u.s)), Dot(x0, u.f0)), Add(Sub(s.c1, Mul(x1[u.t], u.s)), Dot(x1, u.f1)))
  }

  lemma MoveBlind(e: U64, y: U64, f: U64)
    ensures Add(Add(e, f), Sub(y, f)) == Add(e, y)
  {
    WrapSum(e + f, y - f);
  }

  lemma SumKept(e: Vec, y: Vec, f: Vec)
    requires |e| == |y| == |f|
    ensures AddAll(AddAll(e, f), SubAll(y, f)) == AddAll(e, y)
  {
    forall i | 0 <= i < |e| ensures Add(Add(e[i], f[i]), Sub(y[i], f[i])) == Add(e[i], y[i]) {
      MoveBlind(e[i], y[i], f[i]);
    }
  }

  lemma DotSubs(x: Vec, y: Vec, f: Vec)
    requires |x| == |y| == |f|
    ensures Dot(x, SubAll(y, f)) == Sub(Dot(x, y), Dot(x, f))
  {
    DotAdds(x, SubAll(y, f), f);
    assert AddAll(SubAll(y, f), f) == y by {
      forall i | 0 <= i < |y| ensures Add(Sub(y[i], f[i]), f[i]) == y[i] {
        SubThenAdd(y[i], f[i]);
      }
    }
    AddThenSub(Dot(x, SubAll(y, f)), Dot(x, f));
  }

  lemma AddThenSub(a: U64, b: U64)
    ensures Sub(Add(a, b), b) == a
  {
    WrapDifference(a + b, b);
  }

  /** A party's correction replaces the part of the update it does not know. */
  lemma CorrectTerm(x: Vec, f: Vec, f': Vec, t: nat, s: U64, c: U64)
    requires |x| == |f| == |f'| && t < |x| && AddAll(f, f') == Unit(|x|, t, s)
    ensures Add(Sub(c, Mul(x[t], s)), Dot(x, f)) == Sub(c, Dot(x, f'))
  {
    DotAdds(x, f, f');
    DotUnit(x, t, s);
    CancelPart(c, Dot(x, f), Dot(x, f'));
  }

  lemma CancelPart(c: U64, p: U64, q: U64)
    ensures Add(Sub(c, Add(p, q)), p) == Sub(c, q)
  {
    SubRight(c, p + q);
    AddLeft(c - (p + q), p);
  }

  lemma SubRight(c: U64, x: int)
    ensures Sub(c, Wrap(x)) == Wrap(c - x)
  {
    WrapDifference(c, x);
  }

  lemma AddLeft(x: int, p: U64)
    ensures Add(Wrap(x), p) == Wrap(x + p)
  {
    WrapSum(x, p);
  }

  lemma AddAllComm(a: Vec, b: Vec)
    requires |a| == |b|
    ensures AddAll(a, b) == AddAll(b, a)
  {
  }

  lemma SumOfDifferences(a: U64, b: U64, p: U64, q: U64)
    ensures Add(Sub(a, p), Sub(b, q)) == Sub(Add(a, b), Add(p, q))
  {
    AddSubIs(a, b, p, q);
    SubAddIs(a, b, p, q);
  }

  /** A refresh keeps the invariant and adds the update to the shared vector. */
  lemma RefreshKeeps(s: Shares, x0: Vec, x1: Vec, u: Update)
    requires Sound(s, x0, x1) && IsUpdate(u, |x0|)
    ensures Sound(Refreshed(s, x0, x1, u), x0, x1)
  {
    SumKept(s.e0, s.y0, u.f0);
    SumKept(s.e1, s.y1, u.f1);
    AddAllComm(u.f0, u.f1);
    CorrectTerm(x0, u.f0, u.f1, u.t, u.s, s.c0);
    CorrectTerm(x1, u.f1, u.f0, u.t, u.s, s.c1);
    DotSubs(x0, s.y1, u.f1);
    DotSubs(x1, s.y0, u.f0);
    SumOfDifferences(s.c0, s.c1, Dot(x0, u.f1), Dot(x1, u.f0));
    SumOfDifferences(Dot(x0, s.y1), Dot(x1, s.y0), Dot(x0, u.f1), Dot(x1, u.f0));
  }

  // ---------------------------------------------------------------- runs

  /** After any number of refreshes. */
  function RefreshedAll(s: Shares, x0: Vec, x1: Vec, us: seq<Update>): (r: Shares)
    requires |x0| == |x1| && Sized(s, |x0|) && forall i :: 0 <= i < |us| ==> IsUpdate(us[i], |x0|)
    ensures Sized(r, |x0|)
  {
    if us == [] then s else Refreshed(RefreshedAll(s, x0, x1, us[..|us| - 1]), x0, x1, us[|us| - 1])
  }

  /** The vector in the clear. */
  function Opened(s: Shares): Vec
    requires |s.e0| == |s.e1|
  {
    AddAll(s.e0, s.e1)
  }

  function OpenedAll(v: Vec, us: seq<Update>): (r: Vec)
    requires forall i :: 0 <= i < |us| ==> IsUpdate(us[i], |v|)
    ensures |r| == |v|
  {
    if us == [] then v else AddAll(OpenedAll(v, us[..|us| - 1]), Unit(|v|, us[|us| - 1].t, us[|us| - 1].s))
  }

  /** What the updates at position `j` add up to. */
  function AddedAt(us: seq<Update>, j: nat): int {
    if us == [] then 0 else AddedAt(us[..|us| - 1], j) + if us[|us| - 1].t == j then us[|us| - 1].s else 0
  }

  /** Entry by entry, the updated vector is the vector plus all updates at that position. */
  lemma {:induction false} OpenedEntry(v: Vec, us: seq<Update>, j: nat, r: Vec)
    requires (forall i :: 0 <= i < |us| ==> IsUpdate(us[i], |v|)) && j < |v| && r == OpenedAll(v, us)
    ensures r[j] == Wrap(v[j] + AddedAt(us, j))
    decreases |us|
  {
    if us != [] {
      var n := |us| - 1;
      var w := OpenedAll(v, us[..n]);
      OpenedEntry(v, us[..n], j, w);
      LastEntry(w, r, v[j] + AddedAt(us[..n], j), us[n], j);
    }
  }

  lemma LastEntry(w: Vec, r: Vec, sum: int, u: Update, j: nat)
    requires j < |w| && w[j] == Wrap(sum) && r == AddAll(w, Unit(|w|, u.t, u.s))
    ensures r[j] == Wrap(sum + if u.t == j then u.s else 0)
  {
    WrapSum(sum, if u.t == j then u.s else 0);
  }

  lemma AddAllSwap(a: Vec, b: Vec, c: Vec, d: Vec)
    requires |a| == |b| == |c| == |d|
    ensures AddAll(AddAll(a, b), AddAll(c, d)) == AddAll(AddAll(a, c), AddAll(b, d))
  {
    forall i | 0 <= i < |a| ensures Add(Add(a[i], b[i]), Add(c[i], d[i])) == Add(Add(a[i], c[i]), Add(b[i], d[i])) {
      AddSwap(a[i], b[i], c[i], d[i]);
    }
  }

  /** The invariant survives every run, the published sums never change, and the shared vector is the updated one. */
  lemma {:induction false} RefreshesKeep(s: Shares, x0: Vec, x1: Vec, us: seq<Update>)
    requires Sound(s, x0, x1) && forall i :: 0 <= i < |us| ==> IsUpdate(us[i], |x0|)
    ensures Sound(RefreshedAll(s, x0, x1, us), x0, x1)
    ensures RefreshedAll(s, x0, x1, us).tilde0 == s.tilde0 && RefreshedAll(s, x0, x1, us).tilde1 == s.tilde1
    ensures Opened(RefreshedAll(s, x0, x1, us)) == OpenedAll(Opened(s), us)
    decreases |us|
  {
    if us != [] {
      var n := |us| - 1;
      var r, u := RefreshedAll(s, x0, x1, us[..n]), us[n];
      RefreshesKeep(s, x0, x1, us[..n]);
      RefreshKeeps(r, x0, x1, u);
      AddAllSwap(r.e0, u.f0, r.e1, u.f1);
    }
  }

  /** One party's part of the blinded dot product with a shared database. */
  function DotPart(db: Vec, e: Vec, tilde': Vec, y: Vec, dbTilde': Vec, c: U64): U64
    requires |db| == |e| == |tilde'| == |y| == |dbTilde'|
  {
    Combine(Dot(db, AddAll(e, tilde')), Dot(y, dbTilde'), c)
  }

  lemma SameSum(u0: U64, u1: U64, g0: U64, g1: U64, c0: U64, c1: U64)
    requires Add(g0, g1) == Add(c0, c1)
    ensures Add(Add(u0, g0), Add(u1, g1)) == Add(Add(u0, c0), Add(u1, c1))
  {
    AddSwap(u0, g0, u1, g1);
    AddSwap(u0, c0, u1, c1);
  }

  /** The blinded dot product returns the inner product of database and vector modulo 2^64. */
  lemma BlindedDot(s: Shares, x0: Vec, x1: Vec, db0: Vec, db1: Vec)
    requires Sound(s, x0, x1) && |db0| == |db1| == |x0|
    ensures Add(DotPart(db0, s.e0, s.tilde1, s.y0, AddAll(db1, x1), s.c0), DotPart(db1, s.e1, s.tilde0, s.y1, AddAll(db0, x0), s.c1))
         == Dot(AddAll(db0, db1), Opened(s))
  {
    DotShares(db0, s.e0, x0, s.y0, db1, s.e1, x1, s.y1);
    SameSum(Sub(Dot(db0, AddAll(s.e0, s.tilde1)), Dot(s.y0, AddAll(db1, x1))), Sub(Dot(db1, AddAll(s.e1, s.tilde0)), Dot(s.y1, AddAll(db0, x0))),
            Dot(x0, s.y1), Dot(x1, s.y0), s.c0, s.c1);
  }

  /** After any refreshes it returns the inner product with the updated vector. */
  lemma BlindedDotAfter(s: Shares, x0: Vec, x1: Vec, us: seq<Update>, db0: Vec, db1: Vec)
    requires Sound(s, x0, x1) && |db0| == |db1| == |x0| && forall i :: 0 <= i < |us| ==> IsUpdate(us[i], |x0|)
    ensures var r := RefreshedAll(s, x0, x1, us);
            Sound(r, x0, x1) &&
            Add(DotPart(db0, r.e0, s.tilde1, r.y0, AddAll(db1, x1), r.c0), DotPart(db1, r.e1, s.tilde0, r.y1, AddAll(db0, x0), r.c1))
            == Dot(AddAll(db0, db1), OpenedAll(Opened(s), us))
  {
    RefreshesKeep(s, x0, x1, us);
    BlindedDot(RefreshedAll(s, x0, x1, us), x0, x1, db0, db1);
  }

  // ---------------------------------------------------------------- the arrays of both parties

  /** Six arrays, none of them the same as another. */
  predicate Distinct(e0: array<U64>, e1: array<U64>, y0: array<U64>, y1: array<U64>, tilde0: array<U64>, tilde1: array<U64>) {
    && e0 != e1 && e0 != y0 && e0 != y1 && e0 != tilde0 && e0 != tilde1 && e1 != y0 && e1 != y1 && e1 != tilde0 && e1 != tilde1
    && y0 != y1 && y0 != tilde0 && y0 != tilde1 && y1 != tilde0 && y1 != tilde1 && tilde0 != tilde1
  }

  /** `cancellation_correction_new` of one party. */
  method Corrected(c: U64, x: Vec, f: Vec, t: nat, s: U64) returns (c': U64)
    requires |x| == |f| && t < |x|
    ensures c' == Add(Sub(c, Mul(x[t], s)), Dot(x, f))
  {
    var d := DotLoop(x, f);
    c' := Add(Sub(c, Mul(x[t], s)), d);
  }

  /** Both parties refresh in place and correct their cancellation terms: the step that `RefreshesKeep` iterates. */
  method RefreshBoth(e0: array<U64>, e1: array<U64>, y0: array<U64>, y1: array<U64>, tilde0: array<U64>, tilde1: array<U64>,
                     c0: U64, c1: U64, x0: Vec, x1: Vec, u: Update)
    returns (c0': U64, c1': U64)
    requires Distinct(e0, e1, y0, y1, tilde0, tilde1) && |x0| == |x1| && IsUpdate(u, |x0|)
    requires Sized(Shares(e0[..], e1[..], y0[..], y1[..], tilde0[..], tilde1[..], c0, c1), |x0|)
    modifies e0, e1, y0, y1, tilde0, tilde1
    ensures Shares(e0[..], e1[..], y0[..], y1[..], tilde0[..], tilde1[..], c0', c1')
         == Refreshed(Shares(old(e0[..]), old(e1[..]), old(y0[..]), old(y1[..]), old(tilde0[..]), old(tilde1[..]), c0, c1), x0, x1, u)
  {
    RefreshBlinds(e0, tilde0, y0, u.f0, u.f1);
    RefreshBlinds(e1, tilde1, y1, u.f1, u.f0);
    c0' := Corrected(c0, x0, u.f0, u.t, u.s);
    c1' := Corrected(c1, x1, u.f1, u.t, u.s);
  }

  /** Any number of refreshes in place. */
  method RefreshRun(e0: array<U64>, e1: array<U64>, y0: array<U64>, y1: array<U64>, tilde0: array<U64>, tilde1: array<U64>,
                    c0: U64, c1: U64, x0: Vec, x1: Vec, us: seq<Update>)
    returns (c0': U64, c1': U64)
    requires Distinct(e0, e1, y0, y1, tilde0, tilde1) && |x0| == |x1| && forall i :: 0 <= i < |us| ==> IsUpdate(us[i], |x0|)
    requires Sized(Shares(e0[..], e1[..], y0[..], y1[..], tilde0[..], tilde1[..], c0, c1), |x0|)
    modifies e0, e1, y0, y1, tilde0, tilde1
    ensures Shares(e0[..], e1[..], y0[..], y1[..], tilde0[..], tilde1[..], c0', c1')
         == RefreshedAll(Shares(old(e0[..]), old(e1[..]), old(y0[..]), old(y1[..]), old(tilde0[..]), old(tilde1[..]), c0, c1), x0, x1, us)
  {
    ghost var s := Shares(e0[..], e1[..], y0[..], y1[..], tilde0[..], tilde1[..], c0, c1);
    c0', c1' := c0, c1;
    var i := 0;
    while i < |us|
      invariant 0 <= i <= |us|
      invariant Shares(e0[..], e1[..], y0[..], y1[..], tilde0[..], tilde1[..], c0', c1') == RefreshedAll(s, x0, x1, us[..i])
    {
      assert us[..i + 1][..i] == us[..i];
      c0', c1' := RefreshBoth(e0, e1, y0, y1, tilde0, tilde1, c0', c1', x0, x1, us[i]);
      i := i + 1;
    }
    assert us[..i] == us;
  }

  /** One party's blinded dot product, with `dotProductVector` for both sums. */
  method DotOf(db: Vec, e: Vec, tilde': Vec, y: Vec, dbTilde': Vec, c: U64) returns (r: U64)
    requires |db| == |e| == |tilde'| == |y| == |dbTilde'|
    ensures r == DotPart(db, e, tilde', y, dbTilde', c)
  {
    var plus := DotLoop(db, AddAll(e, tilde'));
    var minus := DotLoop(y, dbTilde');
    r := Combine(plus, minus, c);
  }

  /**
   The whole computation on arrays: after any refreshes in place, the two parties' dot products add up to the inner
   product of the database with the updated vector, although both still use the first published vectors.
   */
  method DotAfterRefreshes(e0: array<U64>, e1: array<U64>, y0: array<U64>, y1: array<U64>, tilde0: array<U64>, tilde1: array<U64>,
                           c0: U64, c1: U64, x0: Vec, x1: Vec, us: seq<Update>, db0: Vec, db1: Vec)
    returns (dot0: U64, dot1: U64)
    requires Distinct(e0, e1, y0, y1, tilde0, tilde1) && |db0| == |db1| == |x0| && forall i :: 0 <= i < |us| ==> IsUpdate(us[i], |x0|)
    requires Sound(Shares(e0[..], e1[..], y0[..], y1[..], tilde0[..], tilde1[..], c0, c1), x0, x1)
    modifies e0, e1, y0, y1, tilde0, tilde1
    ensures Add(dot0, dot1) == Dot(AddAll(db0, db1), OpenedAll(AddAll(old(e0[..]), old(e1[..])), us))
    ensures (dot0 + dot1) % 0x1_0000_0000_0000_0000
         == SumOfProducts(AddAll(db0, db1), OpenedAll(AddAll(old(e0[..]), old(e1[..])), us)) % 0x1_0000_0000_0000_0000
  {
    ghost var s := Shares(e0[..], e1[..], y0[..], y1[..], tilde0[..], tilde1[..], c0, c1);
    var d0, d1 := RefreshRun(e0, e1, y0, y1, tilde0, tilde1, c0, c1, x0, x1, us);
    BlindedDotAfter(s, x0, x1, us, db0, db1);
    RefreshesKeep(s, x0, x1, us);
    dot0 := DotOf(db0, e0[..], tilde1[..], y0[..], AddAll(db1, x1), d0);
    dot1 := DotOf(db1, e1[..], tilde0[..], y1[..], AddAll(db0, x0), d1);
    DotIsSum(AddAll(db0, db1), OpenedAll(AddAll(s.e0, s.e1), us));
  }
}
