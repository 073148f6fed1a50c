/** The compressed binary trie of `SparseDpf`: how `partition` splits a range of sorted points. */
module SparseTrie {
  import opened Words

  /** `v >> b`. */
  function Shift(v: nat, b: nat): nat {
    if b == 0 then v else Shift(v, b - 1) / 2
  }

  /** `(v >> b) & 1`. */
  predicate BitAt(v: nat, b: nat) {
    Shift(v, b) % 2 == 1
  }

  predicate Increasing(points: seq<nat>) {
    forall i, j :: 0 <= i < j < |points| ==> points[i] < points[j]
  }

  /** All points of the range have the same bits from `u` on. */
  predicate SamePrefix(points: seq<nat>, lo: nat, hi: nat, u: nat) {
    hi <= |points| && forall i, j :: lo <= i < hi && lo <= j < hi ==> Shift(points[i], u) == Shift(points[j], u)
  }

  lemma ShiftOrder(a: nat, b: nat, u: nat)
    requires a <= b
    ensures Shift(a, u) <= Shift(b, u)
  {
  }

  lemma {:induction false} ShiftZero(v: nat, u: nat)
    requires v < Pow2(u)
    ensures Shift(v, u) == 0
  {
    ShiftBelow(v, u, u);
  }

  lemma {:induction false} ShiftBelow(v: nat, b: nat, u: nat)
    requires v < Pow2(u) && b <= u
    ensures Shift(v, b) < Pow2(u - b)
  {
    if b > 0 {
      ShiftBelow(v, b - 1, u);
      assert Pow2(u - b + 1) == 2 * Pow2(u - b);
    }
  }

  /** The first position of the range whose point has bit `b` (what `std::upper_bound` finds). */
  function FirstSet(points: seq<nat>, lo: nat, hi: nat, b: nat): (m: nat)
    requires lo <= hi <= |points|
    ensures lo <= m <= hi
    ensures forall i :: lo <= i < m ==> !BitAt(points[i], b)
    ensures m < hi ==> BitAt(points[m], b)
    decreases hi - lo
  {
    if lo == hi then hi else if BitAt(points[lo], b) then lo else FirstSet(points, lo + 1, hi, b)
  }

  /** Under a common prefix, sorted points without the bit come first. */
  lemma SetAfter(points: seq<nat>, lo: nat, hi: nat, b: nat, i: nat)
    requires Increasing(points) && lo <= hi <= |points| && SamePrefix(points, lo, hi, b + 1)
    requires FirstSet(points, lo, hi, b) <= i < hi
    ensures BitAt(points[i], b)
  {
    var m := FirstSet(points, lo, hi, b);
    if i > m {
      ShiftOrder(points[m], points[i], b);
      assert Shift(points[m], b + 1) == Shift(points[i], b + 1);
    }
  }

  /** A range split at bit `level - 1`; ranges of one point are leaves, at level 0. */
  predicate IsSplit(points: seq<nat>, lo: nat, mid: nat, hi: nat, level: nat) {
    lo < hi <= |points| &&
    if hi == lo + 1 then level == 0 && mid == hi
    else
      && level > 0 && lo < mid < hi && SamePrefix(points, lo, hi, level)
      && (forall i :: lo <= i < mid ==> !BitAt(points[i], level - 1))
      && (forall i :: mid <= i < hi ==> BitAt(points[i], level - 1))
  }

  /** Ranges that keep a bit fixed agree on one more bit. */
  lemma LongerPrefix(points: seq<nat>, lo: nat, hi: nat, b: nat, bit: bool)
    requires lo <= hi <= |points| && SamePrefix(points, lo, hi, b + 1)
    requires forall i :: lo <= i < hi ==> BitAt(points[i], b) == bit
    ensures SamePrefix(points, lo, hi, b)
  {
    forall i, j | lo <= i < hi && lo <= j < hi ensures Shift(points[i], b) == Shift(points[j], b) {
      assert BitAt(points[i], b) == BitAt(points[j], b);
      assert Shift(points[i], b + 1) == Shift(points[j], b + 1);
    }
  }

  /** Two points of a range differ in some bit, so the search for a splitting bit ends. */
  lemma DistinctPoints(points: seq<nat>, lo: nat, hi: nat)
    requires Increasing(points) && lo + 1 < hi <= |points|
    ensures !SamePrefix(points, lo, hi, 0)
  {
    assert Shift(points[lo], 0) != Shift(points[lo + 1], 0);
  }

  /** The highest bit below `u` that splits the range, as a level, and where it splits it. */
  function SplitAt(points: seq<nat>, lo: nat, hi: nat, u: nat): (nat, nat)
    requires lo < hi <= |points|
  {
    if hi == lo + 1 || u == 0 then (0, hi)
    else
      var m := FirstSet(points, lo, hi, u - 1);
      if lo < m < hi then (u, m) else SplitAt(points, lo, hi, u - 1)
  }

  lemma {:induction false} SplitAtSplits(points: seq<nat>, lo: nat, hi: nat, u: nat)
    requires Increasing(points) && lo < hi <= |points| && SamePrefix(points, lo, hi, u)
    ensures IsSplit(points, lo, SplitAt(points, lo, hi, u).1, hi, SplitAt(points, lo, hi, u).0) && SplitAt(points, lo, hi, u).0 <= u
    decreases u
  {
    if hi > lo + 1 {
      DistinctPoints(points, lo, hi);
      var m := FirstSet(points, lo, hi, u - 1);
      forall i | m <= i < hi ensures BitAt(points[i], u - 1) {
        SetAfter(points, lo, hi, u - 1, i);
      }
      if m == lo || m == hi {
        LongerPrefix(points, lo, hi, u - 1, m == lo);
        SplitAtSplits(points, lo, hi, u - 1);
      }
    }
  }

  /** `partition`: the loop stops, at the highest bit that splits the range. */
  method Partition(points: seq<nat>, lo: nat, hi: nat, upper: nat) returns (level: nat, mid: nat)
    requires Increasing(points) && lo < hi <= |points| && SamePrefix(points, lo, hi, upper)
    ensures (level, mid) == SplitAt(points, lo, hi, upper) && IsSplit(points, lo, mid, hi, level) && level <= upper
  {
    SplitAtSplits(points, lo, hi, upper);
    if hi == lo + 1 {
      return 0, hi;
    }
    var u: nat := upper;
    mid := lo;
    while mid == lo || mid == hi
      invariant u <= upper && lo <= mid <= hi
      invariant mid == lo || mid == hi ==> SplitAt(points, lo, hi, u) == SplitAt(points, lo, hi, upper)
      invariant lo < mid < hi ==> (u + 1, mid) == SplitAt(points, lo, hi, upper)
      decreases u, if mid == lo || mid == hi then 1 else 0
    {
      u := u - 1;
      mid := FirstSet(points, lo, hi, u);
    }
    level := u + 1;
  }

  /** A range splits below every prefix its points share. */
  lemma SplitBelow(points: seq<nat>, lo: nat, mid: nat, hi: nat, level: nat, u: nat)
    requires IsSplit(points, lo, mid, hi, level) && SamePrefix(points, lo, hi, u)
    ensures level <= u
  {
    if u < level {
      PrefixUp(points[lo], points[hi - 1], u, level - 1);
    }
  }

  lemma {:induction false} PrefixUp(a: nat, b: nat, u: nat, v: nat)
    requires Shift(a, u) == Shift(b, u) && u <= v
    ensures Shift(a, v) == Shift(b, v)
  {
    if u < v {
      PrefixUp(a, b, u, v - 1);
    }
  }
}
