/** `mpc_eqz` of mpc/mpcops.hpp: mask, open, and reduce the differing bits by disjunctions. */
module MpcZero {
  import opened Words
  import opened Ring64
  import opened Fifo
  import opened Rounds
  import opened Mpc
  import opened MpcSupply

  /** `(v >> i) & 1`. */
  predicate Bit(v: nat, i: nat) {
    if i == 0 then v % 2 == 1 else Bit(v / 2, i - 1)
  }

  function ToBits(v: U64): (w: Word)
    ensures forall i :: 0 <= i < 64 ==> w[i] == Bit(v, i)
  {
    seq(64, i requires 0 <= i < 64 => Bit(v, i))
  }

  /** Numbers of `n` bits are equal when their bits are. */
  lemma {:induction false} BitsInjective(a: nat, b: nat, n: nat)
    requires a < Pow2(n) && b < Pow2(n) && forall i :: 0 <= i < n ==> Bit(a, i) == Bit(b, i)
    ensures a == b
    decreases n
  {
    if n > 0 {
      assert Bit(a, 0) == Bit(b, 0);
      forall i | 0 <= i < n - 1 ensures Bit(a / 2, i) == Bit(b / 2, i) {
        assert Bit(a, i + 1) == Bit(b, i + 1);
      }
      BitsInjective(a / 2, b / 2, n - 1);
    }
  }

  lemma Pow2Square(n: nat, v: nat)
    requires Pow2(n) == v
    ensures Pow2(n + n) == v * v
  {
    Pow2Add(n, n);
  }

  lemma Pow64()
    ensures Pow2(64) == MOD
  {
    Pow2Square(8, 0x100);
    Pow2Square(16, 0x1_0000);
    Pow2Square(32, 0x1_0000_0000);
  }

  type RowNext = (seq<Word>, nat, Supply) -> Coroutine
  type ZeroNext = (Word, nat, Supply) -> Coroutine

  /** One level of the tree: pairs are joined by a disjunction, an odd last entry is carried over. */
  function ReduceRow(role: nat, level: seq<Word>, i: nat, next: seq<Word>, tag: nat, rnd: Rand, s: Supply, k: RowNext): Coroutine
    decreases if i < |level| then |level| - i else 0
  {
    if i >= |level| then k(next, tag, s)
    else if i + 1 < |level| then
      OrFrom(role, tag, level[i], level[i + 1], rnd, s, (t: Word, s': Supply) => ReduceRow(role, level, i + 2, next + [t], tag + 1, rnd, s', k))
    else ReduceRow(role, level, i + 2, next + [level[i]], tag, rnd, s, k)
  }

  /** `while (level.size() > 1)`; every level is shorter than the one before, so the fault is never taken. */
  function Reduce(role: nat, level: seq<Word>, tag: nat, rnd: Rand, s: Supply, k: ZeroNext): Coroutine
    decreases |level|
  {
    if |level| == 0 then Fault
    else if |level| == 1 then k(level[0], tag, s)
    else ReduceRow(role, level, 0, [], tag, rnd, s,
           (next: seq<Word>, tag': nat, s': Supply) => if |next| < |level| then Reduce(role, next, tag', rnd, s', k) else Fault)
  }

  /** Entry by entry XOR of two levels. */
  function Opened(l0: seq<Word>, l1: seq<Word>): (r: seq<Word>)
    requires |l0| == |l1|
    ensures |r| == |l0|
  {
    seq(|l0|, i requires 0 <= i < |l0| => XorWord(l0[i], l1[i]))
  }

  /** The next level in the clear. */
  function NextLevel(p: seq<Word>): (r: seq<Word>)
    ensures |r| == (|p| + 1) / 2
  {
    seq((|p| + 1) / 2, j requires 0 <= j < (|p| + 1) / 2 => if 2 * j + 1 < |p| then OrWord(p[2 * j], p[2 * j + 1]) else p[2 * j])
  }

  /** The pairs that a row has left at position `i`. */
  function PairsLeft(n: nat, i: nat): nat {
    if i < n then (n - i) / 2 else 0
  }

  predicate RowSoFar(l0: seq<Word>, l1: seq<Word>, l2: seq<Word>, i: nat, n0: seq<Word>, n1: seq<Word>, n2: seq<Word>) {
    && |l0| == |l1| == |l2| && i % 2 == 0 && i <= |l0| + 1 && |n0| == |n1| == |n2| == i / 2
    && (forall j :: 0 <= j < |n0| ==> XorWord(n0[j], n1[j]) == NextLevel(Opened(l0, l1))[j])
  }

  lemma RowPush(l0: seq<Word>, l1: seq<Word>, l2: seq<Word>, i: nat, n0: seq<Word>, n1: seq<Word>, n2: seq<Word>, t0: Word, t1: Word, t2: Word)
    requires RowSoFar(l0, l1, l2, i, n0, n1, n2) && i < |l0|
    requires XorWord(t0, t1) == NextLevel(Opened(l0, l1))[i / 2]
    ensures RowSoFar(l0, l1, l2, i + 2, n0 + [t0], n1 + [t1], n2 + [t2])
  {
  }

  lemma RowDone(l0: seq<Word>, l1: seq<Word>, l2: seq<Word>, i: nat, n0: seq<Word>, n1: seq<Word>, n2: seq<Word>)
    requires RowSoFar(l0, l1, l2, i, n0, n1, n2) && i >= |l0|
    ensures |n0| == |n1| == |n2| == (|l0| + 1) / 2 && Opened(n0, n1) == NextLevel(Opened(l0, l1))
  {
  }

  /** The three parties' rows in the states `RowSoFar` describes. */
  function RowTrio(l0: seq<Word>, l1: seq<Word>, l2: seq<Word>, i: nat, n0: seq<Word>, n1: seq<Word>, n2: seq<Word>, tag: nat, rnd: Rand, st: Store,
                   k0: RowNext, k1: RowNext, k2: RowNext): State<Msg, seq<Value>> {
    Trio(ReduceRow(0, l0, i, n0, tag, rnd, SupplyOf(st, 0), k0), ReduceRow(1, l1, i, n1, tag, rnd, SupplyOf(st, 1), k1),
         ReduceRow(2, l2, i, n2, tag, rnd, SupplyOf(st, 2), k2))
  }

  /** The continuations of a row, with the new levels, the next tag and what is left of the supplies. */
  function RowsNext(st: Store, e: nat, k0: RowNext, k1: RowNext, k2: RowNext, f0: seq<Word>, f1: seq<Word>, f2: seq<Word>): State<Msg, seq<Value>> {
    Trio(k0(f0, e, SupplyOf(st, 0)), k1(f1, e, SupplyOf(st, 1)), k2(f2, e, SupplyOf(st, 2)))
  }

  /** What a row does with the disjunction of a pair. */
  function AfterPair(role: nat, level: seq<Word>, i: nat, next: seq<Word>, tag: nat, rnd: Rand, k: RowNext): WordNext {
    (t: Word, s: Supply) => ReduceRow(role, level, i + 2, next + [t], tag + 1, rnd, s, k)
  }

  lemma RowIsPair(role: nat, level: seq<Word>, i: nat, next: seq<Word>, tag: nat, rnd: Rand, s: Supply, k: RowNext)
    requires i + 1 < |level|
    ensures ReduceRow(role, level, i, next, tag, rnd, s, k)
         == OrFrom(role, tag, level[i], level[i + 1], rnd, s, AfterPair(role, level, i, next, tag, rnd, k))
  {
  }

  lemma RowPair(l0: seq<Word>, l1: seq<Word>, l2: seq<Word>, i: nat, n0: seq<Word>, n1: seq<Word>, n2: seq<Word>, tag: nat, rnd: Rand, st: Store,
                k0: RowNext, k1: RowNext, k2: RowNext)
    returns (t0: Word, t1: Word, t2: Word)
    requires RowSoFar(l0, l1, l2, i, n0, n1, n2) && i + 1 < |l0| && Lasts(st, 0, 1)
    ensures XorWord(t0, t1) == NextLevel(Opened(l0, l1))[i / 2]
    ensures Leads(RowTrio(l0, l1, l2, i, n0, n1, n2, tag, rnd, st, k0, k1, k2),
                  RowTrio(l0, l1, l2, i + 2, n0 + [t0], n1 + [t1], n2 + [t2], tag + 1, rnd, Used(st, 0, 1), k0, k1, k2))
  {
    RowIsPair(0, l0, i, n0, tag, rnd, SupplyOf(st, 0), k0);
    RowIsPair(1, l1, i, n1, tag, rnd, SupplyOf(st, 1), k1);
    RowIsPair(2, l2, i, n2, tag, rnd, SupplyOf(st, 2), k2);
    t0, t1, t2 := OrFromRun(tag, l0[i], l0[i + 1], l1[i], l1[i + 1], l2[i], l2[i + 1], rnd, st,
      AfterPair(0, l0, i, n0, tag, rnd, k0), AfterPair(1, l1, i, n1, tag, rnd, k1), AfterPair(2, l2, i, n2, tag, rnd, k2));
    PairOpened(l0, l1, i);
  }

  lemma PairOpened(l0: seq<Word>, l1: seq<Word>, i: nat)
    requires |l0| == |l1| && i % 2 == 0 && i + 1 < |l0|
    ensures NextLevel(Opened(l0, l1))[i / 2] == OrWord(XorWord(l0[i], l1[i]), XorWord(l0[i + 1], l1[i + 1]))
  {
    assert 2 * (i / 2) == i;
  }

  lemma RowOdd(l0: seq<Word>, l1: seq<Word>, l2: seq<Word>, i: nat, n0: seq<Word>, n1: seq<Word>, n2: seq<Word>, tag: nat, rnd: Rand, st: Store,
               k0: RowNext, k1: RowNext, k2: RowNext)
    requires RowSoFar(l0, l1, l2, i, n0, n1, n2) && i + 1 == |l0|
    ensures RowSoFar(l0, l1, l2, i + 2, n0 + [l0[i]], n1 + [l1[i]], n2 + [l2[i]])
    ensures RowTrio(l0, l1, l2, i, n0, n1, n2, tag, rnd, st, k0, k1, k2)
         == RowTrio(l0, l1, l2, i + 2, n0 + [l0[i]], n1 + [l1[i]], n2 + [l2[i]], tag, rnd, st, k0, k1, k2)
  {
    assert 2 * (i / 2) == i;
    RowPush(l0, l1, l2, i, n0, n1, n2, l0[i], l1[i], l2[i]);
  }

  /** A row of the three parties runs to the continuations, which go on with tag `e` and the supplies `u`. */
  ghost predicate RowLeads(l0: seq<Word>, l1: seq<Word>, l2: seq<Word>, i: nat, n0: seq<Word>, n1: seq<Word>, n2: seq<Word>, tag: nat, rnd: Rand, st: Store,
                           k0: RowNext, k1: RowNext, k2: RowNext, e: nat, u: Store, f0: seq<Word>, f1: seq<Word>, f2: seq<Word>) {
    Leads(RowTrio(l0, l1, l2, i, n0, n1, n2, tag, rnd, st, k0, k1, k2), RowsNext(u, e, k0, k1, k2, f0, f1, f2))
  }

  lemma RowLeadsEnd(l0: seq<Word>, l1: seq<Word>, l2: seq<Word>, i: nat, n0: seq<Word>, n1: seq<Word>, n2: seq<Word>, tag: nat, rnd: Rand, st: Store,
                    k0: RowNext, k1: RowNext, k2: RowNext, e: nat, u: Store)
    requires RowSoFar(l0, l1, l2, i, n0, n1, n2) && i >= |l0| && e == tag && u == Used(st, 0, 0)
    ensures RowLeads(l0, l1, l2, i, n0, n1, n2, tag, rnd, st, k0, k1, k2, e, u, n0, n1, n2)
  {
    assert u == st;
    LeadsSelf(RowTrio(l0, l1, l2, i, n0, n1, n2, tag, rnd, st, k0, k1, k2));
  }

  lemma RowLeadsOdd(l0: seq<Word>, l1: seq<Word>, l2: seq<Word>, i: nat, n0: seq<Word>, n1: seq<Word>, n2: seq<Word>, tag: nat, rnd: Rand, st: Store,
                    k0: RowNext, k1: RowNext, k2: RowNext)
    requires RowSoFar(l0, l1, l2, i, n0, n1, n2) && i + 1 == |l0|
    ensures RowSoFar(l0, l1, l2, i + 2, n0 + [l0[i]], n1 + [l1[i]], n2 + [l2[i]])
    ensures forall e, u, f0, f1, f2 ::
              RowLeads(l0, l1, l2, i + 2, n0 + [l0[i]], n1 + [l1[i]], n2 + [l2[i]], tag, rnd, st, k0, k1, k2, e, u, f0, f1, f2)
              ==> RowLeads(l0, l1, l2, i, n0, n1, n2, tag, rnd, st, k0, k1, k2, e, u, f0, f1, f2)
  {
    RowOdd(l0, l1, l2, i, n0, n1, n2, tag, rnd, st, k0, k1, k2);
  }

  /** One pair uses one conjunction; the rest of the row uses the others. */
  lemma PairUsed(st: Store, n: nat, i: nat, tag: nat, e: nat, u: Store)
    requires i + 1 < n && Lasts(st, 0, PairsLeft(n, i)) && e == tag + PairsLeft(n, i) && u == Used(st, 0, PairsLeft(n, i))
    ensures Lasts(st, 0, 1) && Lasts(Used(st, 0, 1), 0, PairsLeft(n, i + 2))
    ensures e == tag + 1 + PairsLeft(n, i + 2) && u == Used(Used(st, 0, 1), 0, PairsLeft(n, i + 2))
  {
    assert PairsLeft(n, i) == 1 + PairsLeft(n, i + 2);
  }

  lemma {:induction false} RowRunPair(l0: seq<Word>, l1: seq<Word>, l2: seq<Word>, i: nat, n0: seq<Word>, n1: seq<Word>, n2: seq<Word>, tag: nat, rnd: Rand, st: Store,
                                  k0: RowNext, k1: RowNext, k2: RowNext, e: nat, u: Store)
    returns (f0: seq<Word>, f1: seq<Word>, f2: seq<Word>)
    requires i + 1 < |l0| && RowSoFar(l0, l1, l2, i, n0, n1, n2) && Lasts(st, 0, PairsLeft(|l0|, i))
    requires e == tag + PairsLeft(|l0|, i) && u == Used(st, 0, PairsLeft(|l0|, i))
    ensures |f0| == |f1| == |f2| == (|l0| + 1) / 2 && Opened(f0, f1) == NextLevel(Opened(l0, l1))
    ensures RowLeads(l0, l1, l2, i, n0, n1, n2, tag, rnd, st, k0, k1, k2, e, u, f0, f1, f2)
    decreases if i < |l0| then |l0| - i else 0, 0
  {
    PairUsed(st, |l0|, i, tag, e, u);
    var t0, t1, t2 := RowPair(l0, l1, l2, i, n0, n1, n2, tag, rnd, st, k0, k1, k2);
    RowPush(l0, l1, l2, i, n0, n1, n2, t0, t1, t2);
    f0, f1, f2 := RowRun(l0, l1, l2, i + 2, n0 + [t0], n1 + [t1], n2 + [t2], tag + 1, rnd, Used(st, 0, 1), k0, k1, k2, e, u);
    LeadsJoin(RowTrio(l0, l1, l2, i, n0, n1, n2, tag, rnd, st, k0, k1, k2),
              RowTrio(l0, l1, l2, i + 2, n0 + [t0], n1 + [t1], n2 + [t2], tag + 1, rnd, Used(st, 0, 1), k0, k1, k2),
              RowsNext(u, e, k0, k1, k2, f0, f1, f2));
  }

  lemma {:induction false} RowRunOdd(l0: seq<Word>, l1: seq<Word>, l2: seq<Word>, i: nat, n0: seq<Word>, n1: seq<Word>, n2: seq<Word>, tag: nat, rnd: Rand, st: Store,
                                  k0: RowNext, k1: RowNext, k2: RowNext, e: nat, u: Store)
    returns (f0: seq<Word>, f1: seq<Word>, f2: seq<Word>)
    requires i + 1 == |l0| && RowSoFar(l0, l1, l2, i, n0, n1, n2) && Lasts(st, 0, PairsLeft(|l0|, i))
    requires e == tag + PairsLeft(|l0|, i) && u == Used(st, 0, PairsLeft(|l0|, i))
    ensures |f0| == |f1| == |f2| == (|l0| + 1) / 2 && Opened(f0, f1) == NextLevel(Opened(l0, l1))
    ensures RowLeads(l0, l1, l2, i, n0, n1, n2, tag, rnd, st, k0, k1, k2, e, u, f0, f1, f2)
    decreases if i < |l0| then |l0| - i else 0, 0
  {
    RowLeadsOdd(l0, l1, l2, i, n0, n1, n2, tag, rnd, st, k0, k1, k2);
    f0, f1, f2 := RowRun(l0, l1, l2, i + 2, n0 + [l0[i]], n1 + [l1[i]], n2 + [l2[i]], tag, rnd, st, k0, k1, k2, e, u);
  }

  /** Three parties that reduce a row: each pair takes one disjunction, in order, with its own tag and material. */
  lemma {:induction false} RowRun(l0: seq<Word>, l1: seq<Word>, l2: seq<Word>, i: nat, n0: seq<Word>, n1: seq<Word>, n2: seq<Word>, tag: nat, rnd: Rand, st: Store,
                                  k0: RowNext, k1: RowNext, k2: RowNext, e: nat, u: Store)
    returns (f0: seq<Word>, f1: seq<Word>, f2: seq<Word>)
    requires RowSoFar(l0, l1, l2, i, n0, n1, n2) && Lasts(st, 0, PairsLeft(|l0|, i))
    requires e == tag + PairsLeft(|l0|, i) && u == Used(st, 0, PairsLeft(|l0|, i))
    ensures |f0| == |f1| == |f2| == (|l0| + 1) / 2 && Opened(f0, f1) == NextLevel(Opened(l0, l1))
    ensures RowLeads(l0, l1, l2, i, n0, n1, n2, tag, rnd, st, k0, k1, k2, e, u, f0, f1, f2)
    decreases if i < |l0| then |l0| - i else 0, 1
  {
    if i + 1 < |l0| {
      f0, f1, f2 := RowRunPair(l0, l1, l2, i, n0, n1, n2, tag, rnd, st, k0, k1, k2, e, u);
    } else if i + 1 == |l0| {
      f0, f1, f2 := RowRunOdd(l0, l1, l2, i, n0, n1, n2, tag, rnd, st, k0, k1, k2, e, u);
    } else {
      f0, f1, f2 := n0, n1, n2;
      RowDone(l0, l1, l2, i, n0, n1, n2);
      RowLeadsEnd(l0, l1, l2, i, n0, n1, n2, tag, rnd, st, k0, k1, k2, e, u);
    }
  }

  /** `z` is the disjunction of all words of `p`. */
  predicate IsOr(z: Word, p: seq<Word>) {
    forall b :: 0 <= b < 64 ==> (z[b] <==> exists j :: 0 <= j < |p| && p[j][b])
  }

  /** A bit is set in some word of the next level exactly if it is set in some word of the level. */
  lemma BitOfNext(p: seq<Word>, b: nat)
    requires b < 64
    ensures (exists j :: 0 <= j < |NextLevel(p)| && NextLevel(p)[j][b]) <==> exists j :: 0 <= j < |p| && p[j][b]
  {
    var q := NextLevel(p);
    if j :| 0 <= j < |q| && q[j][b] {
      assert p[2 * j][b] || (2 * j + 1 < |p| && p[2 * j + 1][b]);
    }
    if j :| 0 <= j < |p| && p[j][b] {
      assert q[j / 2][b];
    }
  }

  lemma OrOfNext(z: Word, p: seq<Word>)
    requires IsOr(z, NextLevel(p))
    ensures IsOr(z, p)
  {
    forall b | 0 <= b < 64 ensures z[b] <==> exists j :: 0 <= j < |p| && p[j][b] {
      BitOfNext(p, b);
    }
  }

  function ReduceTrio(l0: seq<Word>, l1: seq<Word>, l2: seq<Word>, tag: nat, rnd: Rand, st: Store, k0: ZeroNext, k1: ZeroNext, k2: ZeroNext): State<Msg, seq<Value>> {
    Trio(Reduce(0, l0, tag, rnd, SupplyOf(st, 0), k0), Reduce(1, l1, tag, rnd, SupplyOf(st, 1), k1), Reduce(2, l2, tag, rnd, SupplyOf(st, 2), k2))
  }

  function ZerosNext(st: Store, e: nat, k0: ZeroNext, k1: ZeroNext, k2: ZeroNext, z0: Word, z1: Word, z2: Word): State<Msg, seq<Value>> {
    Trio(k0(z0, e, SupplyOf(st, 0)), k1(z1, e, SupplyOf(st, 1)), k2(z2, e, SupplyOf(st, 2)))
  }

  /** A reduction runs to the continuations, which go on with tag `e` and the supplies `u`. */
  ghost predicate ReduceLeads(l0: seq<Word>, l1: seq<Word>, l2: seq<Word>, tag: nat, rnd: Rand, st: Store,
                              k0: ZeroNext, k1: ZeroNext, k2: ZeroNext, e: nat, u: Store, z0: Word, z1: Word, z2: Word) {
    Leads(ReduceTrio(l0, l1, l2, tag, rnd, st, k0, k1, k2), ZerosNext(u, e, k0, k1, k2, z0, z1, z2))
  }

  lemma ReduceOne(l0: seq<Word>, l1: seq<Word>, l2: seq<Word>, tag: nat, rnd: Rand, st: Store, k0: ZeroNext, k1: ZeroNext, k2: ZeroNext)
    requires |l0| == |l1| == |l2| == 1
    ensures ReduceLeads(l0, l1, l2, tag, rnd, st, k0, k1, k2, tag, st, l0[0], l1[0], l2[0])
    ensures IsOr(XorWord(l0[0], l1[0]), Opened(l0, l1))
  {
    LeadsSelf(ReduceTrio(l0, l1, l2, tag, rnd, st, k0, k1, k2));
    assert Opened(l0, l1)[0] == XorWord(l0[0], l1[0]);
  }

  lemma ReduceOnce(l0: seq<Word>, l1: seq<Word>, l2: seq<Word>, tag: nat, rnd: Rand, st: Store, k0: ZeroNext, k1: ZeroNext, k2: ZeroNext, t: nat, u: Store)
    returns (f0: seq<Word>, f1: seq<Word>, f2: seq<Word>)
    requires |l0| == |l1| == |l2| > 1 && Lasts(st, 0, |l0| / 2) && t == tag + |l0| / 2 && u == Used(st, 0, |l0| / 2)
    ensures |f0| == |f1| == |f2| == (|l0| + 1) / 2 && Opened(f0, f1) == NextLevel(Opened(l0, l1))
    ensures Leads(ReduceTrio(l0, l1, l2, tag, rnd, st, k0, k1, k2), ReduceTrio(f0, f1, f2, t, rnd, u, k0, k1, k2))
  {
    f0, f1, f2 := RowRun(l0, l1, l2, 0, [], [], [], tag, rnd, st,
      (next: seq<Word>, tag': nat, s: Supply) => if |next| < |l0| then Reduce(0, next, tag', rnd, s, k0) else Fault,
      (next: seq<Word>, tag': nat, s: Supply) => if |next| < |l1| then Reduce(1, next, tag', rnd, s, k1) else Fault,
      (next: seq<Word>, tag': nat, s: Supply) => if |next| < |l2| then Reduce(2, next, tag', rnd, s, k2) else Fault, t, u);
  }

  /** A level uses half its size, the rest of the reduction the others. */
  lemma LevelUsed(st: Store, n: nat, tag: nat, e: nat, u: Store)
    requires n > 1 && Lasts(st, 0, n - 1) && e == tag + n - 1 && u == Used(st, 0, n - 1)
    ensures Lasts(st, 0, n / 2) && Lasts(Used(st, 0, n / 2), 0, (n + 1) / 2 - 1)
    ensures e == tag + n / 2 + (n + 1) / 2 - 1 && u == Used(Used(st, 0, n / 2), 0, (n + 1) / 2 - 1)
  {
    assert n / 2 + (n + 1) / 2 == n;
  }

  /** A level of any size `n` takes exactly `n - 1` disjunctions at all three parties and ends in shares of the disjunction. */
  lemma {:induction false} ReduceRun(l0: seq<Word>, l1: seq<Word>, l2: seq<Word>, tag: nat, rnd: Rand, st: Store, k0: ZeroNext, k1: ZeroNext, k2: ZeroNext, e: nat, u: Store)
    returns (z0: Word, z1: Word, z2: Word)
    requires |l0| == |l1| == |l2| > 0 && Lasts(st, 0, |l0| - 1) && e == tag + |l0| - 1 && u == Used(st, 0, |l0| - 1)
    ensures IsOr(XorWord(z0, z1), Opened(l0, l1))
    ensures ReduceLeads(l0, l1, l2, tag, rnd, st, k0, k1, k2, e, u, z0, z1, z2)
    decreases |l0|
  {
    if |l0| == 1 {
      z0, z1, z2 := l0[0], l1[0], l2[0];
      ReduceOne(l0, l1, l2, tag, rnd, st, k0, k1, k2);
    } else {
      var t, v := tag + |l0| / 2, Used(st, 0, |l0| / 2);
      LevelUsed(st, |l0|, tag, e, u);
      var f0, f1, f2 := ReduceOnce(l0, l1, l2, tag, rnd, st, k0, k1, k2, t, v);
      z0, z1, z2 := ReduceRun(f0, f1, f2, t, rnd, v, k0, k1, k2, e, u);
      OrOfNext(XorWord(z0, z1), Opened(l0, l1));
      LeadsJoin(ReduceTrio(l0, l1, l2, tag, rnd, st, k0, k1, k2), ReduceTrio(f0, f1, f2, t, rnd, v, k0, k1, k2),
                ZerosNext(u, e, k0, k1, k2, z0, z1, z2));
    }
  }

  // ---------------------------------------------------------------- mpc_eqz

  /** The dealer's mask `r` and the first halves of its two sharings. */
  datatype ZeroDraws = ZeroDraws(r: U64, r0: U64, w0: Word)

  function EqzDraws(rnd: Rand, tag: nat): ZeroDraws {
    ZeroDraws(rnd.num(tag, 0), rnd.num(tag, 1), rnd.word(tag, 0))
  }

  function MaskMsgs(tag: nat, r: U64, w: Word): seq<Msg> {
    [Msg(tag, Num(r)), Msg(tag, Bits(w))]
  }

  function ZeroLevel(): (r: seq<Word>)
    ensures |r| == 64
  {
    seq<Word>(64, i => ZeroWord())
  }

  function EqzProc(role: nat, tag: nat, x: U64, rnd: Rand, s: Supply, k: ZeroNext): Coroutine {
    var d := EqzDraws(rnd, tag);
    if role == 2 then
      Deal(MaskMsgs(tag, d.r0, d.w0), MaskMsgs(tag, Sub(d.r, d.r0), XorWord(ToBits(d.r), d.w0)),
           lines => Reduce(2, ZeroLevel(), tag + 1, rnd, s, k))
    else
      Take(2, lines => EqzSwap(role, tag, x, rnd, s, k, lines))
  }

  predicate GotMask(lines: Lines, tag: nat) {
    Got(lines, 2, tag, 2) && lines[2].got[0].body.Num? && lines[2].got[1].body.Bits?
  }

  function EqzSwap(role: nat, tag: nat, x: U64, rnd: Rand, s: Supply, k: ZeroNext, lines: Lines): Coroutine {
    if role < 2 && GotMask(lines, tag) then EqzWith(role, tag, Add(x, NumAt(lines, 2, 0)), WordAt(lines, 2, 1), rnd, s, k) else Fault
  }

  function EqzWith(role: nat, tag: nat, c: U64, w: Word, rnd: Rand, s: Supply, k: ZeroNext): Coroutine
    requires role < 2
  {
    Swap(role, Nums(tag, [c]), 1, lines => EqzEnd(role, tag, c, w, rnd, s, k, lines))
  }

  /** The leaves of the tree: P1 alone adds the bits of the opened value. */
  function Leaves(role: nat, c: U64, w: Word): (r: seq<Word>)
    ensures |r| == 64
  {
    seq<Word>(64, i requires 0 <= i < 64 => BitWord(if role == 1 then Bit(c, i) != w[i] else w[i]))
  }

  function EqzEnd(role: nat, tag: nat, c: U64, w: Word, rnd: Rand, s: Supply, k: ZeroNext, lines: Lines): Coroutine {
    if role < 2 && GotNums(lines, 1 - role, tag, 1) then
      Reduce(role, Leaves(role, Add(c, NumAt(lines, 1 - role, 0)), w), tag + 1, rnd, s, k)
    else
      Fault
  }

  lemma EqzExchange(tag: nat, c0: U64, w0: Word, c1: U64, w1: Word, rnd: Rand, s0: Supply, s1: Supply, k0: ZeroNext, k1: ZeroNext, p2: Coroutine)
    ensures Leads(Trio(EqzWith(0, tag, c0, w0, rnd, s0, k0), EqzWith(1, tag, c1, w1, rnd, s1, k1), p2),
                  Trio(Reduce(0, Leaves(0, Add(c0, c1), w0), tag + 1, rnd, s0, k0), Reduce(1, Leaves(1, Add(c1, c0), w1), tag + 1, rnd, s1, k1), p2))
  {
    SwapRound(lines => EqzEnd(0, tag, c0, w0, rnd, s0, k0, lines), lines => EqzEnd(1, tag, c1, w1, rnd, s1, k1, lines), p2, Nums(tag, [c0]), Nums(tag, [c1]));
  }

  function EqzTrio(tag: nat, x0: U64, x1: U64, x2: U64, rnd: Rand, st: Store, k0: ZeroNext, k1: ZeroNext, k2: ZeroNext): State<Msg, seq<Value>> {
    Trio(EqzProc(0, tag, x0, rnd, SupplyOf(st, 0), k0), EqzProc(1, tag, x1, rnd, SupplyOf(st, 1), k1), EqzProc(2, tag, x2, rnd, SupplyOf(st, 2), k2))
  }

  /** The workers with their masked shares, and the dealer at the start of its dummy loop. */
  function EqzMasked(tag: nat, c0: U64, w0: Word, c1: U64, w1: Word, rnd: Rand, st: Store, k0: ZeroNext, k1: ZeroNext, k2: ZeroNext): State<Msg, seq<Value>> {
    Trio(EqzWith(0, tag, c0, w0, rnd, SupplyOf(st, 0), k0), EqzWith(1, tag, c1, w1, rnd, SupplyOf(st, 1), k1),
         Reduce(2, ZeroLevel(), tag + 1, rnd, SupplyOf(st, 2), k2))
  }

  lemma MasksDealt(tag: nat, x0: U64, x1: U64, x2: U64, rnd: Rand, s0: Supply, s1: Supply, s2: Supply, d: ZeroDraws,
                   k0: ZeroNext, k1: ZeroNext, k2: ZeroNext)
    requires d == EqzDraws(rnd, tag)
    ensures Leads(Trio(EqzProc(0, tag, x0, rnd, s0, k0), EqzProc(1, tag, x1, rnd, s1, k1), EqzProc(2, tag, x2, rnd, s2, k2)),
                  Trio(EqzWith(0, tag, Add(x0, d.r0), d.w0, rnd, s0, k0), EqzWith(1, tag, Add(x1, Sub(d.r, d.r0)), XorWord(ToBits(d.r), d.w0), rnd, s1, k1),
                       Reduce(2, ZeroLevel(), tag + 1, rnd, s2, k2)))
  {
    var m0, m1 := MaskMsgs(tag, d.r0, d.w0), MaskMsgs(tag, Sub(d.r, d.r0), XorWord(ToBits(d.r), d.w0));
    MaskArrives(0, tag, x0, d.r0, d.w0, rnd, s0, k0);
    MaskArrives(1, tag, x1, Sub(d.r, d.r0), XorWord(ToBits(d.r), d.w0), rnd, s1, k1);
    DealRound(lines => EqzSwap(0, tag, x0, rnd, s0, k0, lines), lines => EqzSwap(1, tag, x1, rnd, s1, k1, lines),
              lines => Reduce(2, ZeroLevel(), tag + 1, rnd, s2, k2), m0, m1);
  }

  lemma MaskArrives(role: nat, tag: nat, x: U64, r: U64, w: Word, rnd: Rand, s: Supply, k: ZeroNext)
    requires role < 2
    ensures EqzSwap(role, tag, x, rnd, s, k, From(2, MaskMsgs(tag, r, w))) == EqzWith(role, tag, Add(x, r), w, rnd, s, k)
  {
  }

  lemma EqzDealt(tag: nat, x0: U64, x1: U64, x2: U64, rnd: Rand, st: Store, d: ZeroDraws, k0: ZeroNext, k1: ZeroNext, k2: ZeroNext)
    requires d == EqzDraws(rnd, tag)
    ensures Leads(EqzTrio(tag, x0, x1, x2, rnd, st, k0, k1, k2),
                  EqzMasked(tag, Add(x0, d.r0), d.w0, Add(x1, Sub(d.r, d.r0)), XorWord(ToBits(d.r), d.w0), rnd, st, k0, k1, k2))
  {
    MasksDealt(tag, x0, x1, x2, rnd, SupplyOf(st, 0), SupplyOf(st, 1), SupplyOf(st, 2), d, k0, k1, k2);
  }

  /** The opened value is the secret plus the mask. */
  lemma OpenedMask(x0: U64, x1: U64, r: U64, r0: U64)
    ensures Add(Add(x0, r0), Add(x1, Sub(r, r0))) == Add(Add(x0, x1), r)
    ensures Add(Add(x1, Sub(r, r0)), Add(x0, r0)) == Add(Add(x0, x1), r)
  {
    AddSwap(x0, r0, x1, Sub(r, r0));
    Unmask(r, r0);
    AddComm(Add(x1, Sub(r, r0)), Add(x0, r0));
  }

  lemma Unmask(r: U64, r0: U64)
    ensures Add(r0, Sub(r, r0)) == r
  {
    AddRight(r0, r - r0);
  }

  lemma AddComm(a: U64, b: U64)
    ensures Add(a, b) == Add(b, a)
  {
  }

  /** The opened leaves are the bits in which the opened value and the mask differ. */
  lemma LeafBits(c: U64, r: U64, w: Word, i: nat)
    requires i < 64
    ensures Opened(Leaves(0, c, w), Leaves(1, c, XorWord(ToBits(r), w)))[i] == BitWord(Bit(c, i) != Bit(r, i))
  {
    BitWords(w[i], Bit(c, i) != XorWord(ToBits(r), w)[i]);
  }

  /** Their disjunction says whether the secret is non-zero. */
  lemma OrIsNonZero(x: U64, r: U64, w: Word, z: Word)
    requires IsOr(z, Opened(Leaves(0, Add(x, r), w), Leaves(1, Add(x, r), XorWord(ToBits(r), w))))
    ensures z == BitWord(x != 0)
  {
    var c := Add(x, r);
    var p := Opened(Leaves(0, c, w), Leaves(1, c, XorWord(ToBits(r), w)));
    forall i | 0 <= i < 64 ensures p[i] == BitWord(Bit(c, i) != Bit(r, i)) {
      LeafBits(c, r, w, i);
    }
    SomeBit(c, r);
    MaskedZero(x, r);
    if x != 0 {
      var i :| 0 <= i < 64 && Bit(c, i) != Bit(r, i);
      assert p[i][0];
    }
    SameWord(z, BitWord(x != 0));
  }

  lemma MaskedZero(x: U64, r: U64)
    ensures Add(x, r) == r <==> x == 0
  {
  }

  lemma SomeBit(c: U64, r: U64)
    ensures c != r <==> exists i :: 0 <= i < 64 && Bit(c, i) != Bit(r, i)
  {
    if i :| 0 <= i < 64 && Bit(c, i) != Bit(r, i) {
      assert Bit(c, i) != Bit(r, i);
    } else {
      Pow64();
      BitsInjective(c, r, 64);
    }
  }

  lemma EqzOpens(tag: nat, x0: U64, x1: U64, x2: U64, rnd: Rand, st: Store, d: ZeroDraws, c: U64, k0: ZeroNext, k1: ZeroNext, k2: ZeroNext)
    requires d == EqzDraws(rnd, tag) && c == Add(Add(x0, x1), d.r)
    ensures Leads(EqzTrio(tag, x0, x1, x2, rnd, st, k0, k1, k2),
                  ReduceTrio(Leaves(0, c, d.w0), Leaves(1, c, XorWord(ToBits(d.r), d.w0)), ZeroLevel(), tag + 1, rnd, st, k0, k1, k2))
  {
    var c0, c1, w1 := Add(x0, d.r0), Add(x1, Sub(d.r, d.r0)), XorWord(ToBits(d.r), d.w0);
    EqzDealt(tag, x0, x1, x2, rnd, st, d, k0, k1, k2);
    EqzExchange(tag, c0, d.w0, c1, w1, rnd, SupplyOf(st, 0), SupplyOf(st, 1), k0, k1, Reduce(2, ZeroLevel(), tag + 1, rnd, SupplyOf(st, 2), k2));
    OpenedMask(x0, x1, d.r, d.r0);
    LeadsJoin(EqzTrio(tag, x0, x1, x2, rnd, st, k0, k1, k2), EqzMasked(tag, c0, d.w0, c1, w1, rnd, st, k0, k1, k2),
              ReduceTrio(Leaves(0, c, d.w0), Leaves(1, c, w1), ZeroLevel(), tag + 1, rnd, st, k0, k1, k2));
  }

  /**
   The zero test, online or with replayed conjunctions: it ends in XOR shares of "the secret is not zero", after
   one opening and exactly 63 conjunctions.
   */
  lemma EqzRun(tag: nat, x0: U64, x1: U64, x2: U64, rnd: Rand, st: Store, k0: ZeroNext, k1: ZeroNext, k2: ZeroNext, e: nat, u: Store)
    returns (z0: Word, z1: Word, z2: Word)
    requires Lasts(st, 0, 63) && e == tag + 64 && u == Used(st, 0, 63)
    ensures XorWord(z0, z1) == BitWord(Add(x0, x1) != 0)
    ensures Leads(EqzTrio(tag, x0, x1, x2, rnd, st, k0, k1, k2), ZerosNext(u, e, k0, k1, k2, z0, z1, z2))
  {
    var d := EqzDraws(rnd, tag);
    var c := Add(Add(x0, x1), d.r);
    var l0, l1 := Leaves(0, c, d.w0), Leaves(1, c, XorWord(ToBits(d.r), d.w0));
    EqzOpens(tag, x0, x1, x2, rnd, st, d, c, k0, k1, k2);
    z0, z1, z2 := ReduceRun(l0, l1, ZeroLevel(), tag + 1, rnd, st, k0, k1, k2, e, u);
    OrIsNonZero(Add(x0, x1), d.r, d.w0, XorWord(z0, z1));
    LeadsJoin(EqzTrio(tag, x0, x1, x2, rnd, st, k0, k1, k2), ReduceTrio(l0, l1, ZeroLevel(), tag + 1, rnd, st, k0, k1, k2),
              ZerosNext(u, e, k0, k1, k2, z0, z1, z2));
  }
}
