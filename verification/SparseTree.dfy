/** One party's tree in `SparseDpf::expand`, and the relation between two parties' trees. */
module SparseTree {
  import opened Blocks
  import opened Words
  import opened SparseTrie
  import DpfTree

  type Prg = DpfTree.Prg

  /** A range of points, its not yet corrected seed and its parent's tag. */
  datatype Entry = Entry(lo: nat, mid: nat, hi: nat, child: bool, parent: nat, seed: Block, tag: bool)

  /** Entries per level, and per level the sums of children, whether it is used, and its correction. */
  datatype Tree = Tree(levels: seq<seq<Entry>>, z: seq<(Block, Block)>, used: seq<bool>, sigma: seq<Block>, tau: seq<(bool, bool)>)

  predicate Shape(t: Tree, depth: nat) {
    |t.levels| == |t.z| == |t.used| == |t.sigma| == |t.tau| == depth + 1
  }

  function Pick<T>(p: (T, T), second: bool): T {
    if second then p.1 else p.0
  }

  /** An entry's seed and tag under a level's correction. */
  function FixedSeed(e: Entry, sigma: Block): Block {
    Xor(e.seed, Mask(e.tag, sigma))
  }

  predicate FixedTag(e: Entry, tau: (bool, bool)) {
    Lsb(e.seed) != (e.tag && Pick(tau, e.child))
  }

  function Push(t: Tree, level: nat, e: Entry): Tree
    requires level < |t.levels|
  {
    t.(levels := t.levels[level := t.levels[level] + [e]])
  }

  function AddSums(t: Tree, level: nat, c0: Block, c1: Block): Tree
    requires level < |t.z| == |t.used|
  {
    t.(z := t.z[level := (Xor(t.z[level].0, c0), Xor(t.z[level].1, c1))], used := t.used[level := true])
  }

  predicate Splittable(points: seq<nat>, e: Entry) {
    e.lo < e.mid < e.hi <= |points|
  }

  /** The child entries of an expanded entry of `level`. */
  function LeftChild(points: seq<nat>, e: Entry, level: nat, seed: Block, tag: bool): Entry
    requires Splittable(points, e)
  {
    Entry(e.lo, SplitAt(points, e.lo, e.mid, level).1, e.mid, false, level, seed, tag)
  }

  function RightChild(points: seq<nat>, e: Entry, level: nat, seed: Block, tag: bool): Entry
    requires Splittable(points, e)
  {
    Entry(e.mid, SplitAt(points, e.mid, e.hi, level).1, e.hi, true, level, seed, tag)
  }

  function LeftLevel(points: seq<nat>, e: Entry, level: nat): nat
    requires Splittable(points, e)
  {
    SplitAt(points, e.lo, e.mid, level).0
  }

  function RightLevel(points: seq<nat>, e: Entry, level: nat): nat
    requires Splittable(points, e)
  {
    SplitAt(points, e.mid, e.hi, level).0
  }

  /** What expanding a corrected entry `(s, tag)` of `level` does to the tree. */
  function Grow(prg: Prg, points: seq<nat>, t: Tree, level: nat, e: Entry, s: Block, tag: bool, depth: nat): Tree
    requires Shape(t, depth) && level <= depth && Splittable(points, e)
    requires LeftLevel(points, e, level) <= depth && RightLevel(points, e, level) <= depth
  {
    Push(Push(AddSums(t, level, prg(s, 0), prg(s, 1)), LeftLevel(points, e, level), LeftChild(points, e, level, prg(s, 0), tag)),
         RightLevel(points, e, level), RightChild(points, e, level, prg(s, 1), tag))
  }

  /** Expansion of one entry: correct it, hash it twice, add to the sums, split its range and file the children. */
  method ExpandEntry(prg: Prg, points: seq<nat>, t: Tree, level: nat, i: nat, depth: nat) returns (t': Tree)
    requires Shape(t, depth) && 0 < level <= depth && i < |t.levels[level]| && Increasing(points)
    requires var e := t.levels[level][i]; IsSplit(points, e.lo, e.mid, e.hi, level) && e.parent <= depth
    ensures var e := t.levels[level][i];
            && Splittable(points, e) && LeftLevel(points, e, level) < level && RightLevel(points, e, level) < level
            && t' == Grow(prg, points, t, level, e, FixedSeed(e, t.sigma[e.parent]), FixedTag(e, t.tau[e.parent]), depth)
  {
    var e := t.levels[level][i];
    var s, tag := FixedSeed(e, t.sigma[e.parent]), FixedTag(e, t.tau[e.parent]);
    ChildLevels(points, e, level);
    var c0, c1 := prg(s, 0), prg(s, 1);
    t' := AddSums(t, level, c0, c1);
    var l0, m0 := Partition(points, e.lo, e.mid, level);
    t' := Push(t', l0, Entry(e.lo, m0, e.mid, false, level, c0, tag));
    var l1, m1 := Partition(points, e.mid, e.hi, level);
    t' := Push(t', l1, Entry(e.mid, m1, e.hi, true, level, c1, tag));
  }

  lemma HalfSplits(points: seq<nat>, lo: nat, hi: nat, level: nat, bit: bool)
    requires Increasing(points) && level > 0 && lo < hi <= |points| && SamePrefix(points, lo, hi, level)
    requires forall i :: lo <= i < hi ==> BitAt(points[i], level - 1) == bit
    ensures IsSplit(points, lo, SplitAt(points, lo, hi, level).1, hi, SplitAt(points, lo, hi, level).0) && SplitAt(points, lo, hi, level).0 < level
  {
    SplitAtSplits(points, lo, hi, level);
    LongerPrefix(points, lo, hi, level - 1, bit);
    SplitBelow(points, lo, SplitAt(points, lo, hi, level).1, hi, SplitAt(points, lo, hi, level).0, level - 1);
  }

  lemma SplitHalves(points: seq<nat>, e: Entry, level: nat)
    requires level > 0 && IsSplit(points, e.lo, e.mid, e.hi, level)
    ensures Splittable(points, e) && SamePrefix(points, e.lo, e.mid, level) && SamePrefix(points, e.mid, e.hi, level)
    ensures forall i :: e.lo <= i < e.mid ==> BitAt(points[i], level - 1) == false
    ensures forall i :: e.mid <= i < e.hi ==> BitAt(points[i], level - 1) == true
  {
  }

  /** Both halves of a split range split at strictly lower levels. */
  lemma ChildLevels(points: seq<nat>, e: Entry, level: nat)
    requires Increasing(points) && level > 0 && IsSplit(points, e.lo, e.mid, e.hi, level)
    ensures Splittable(points, e) && SamePrefix(points, e.lo, e.mid, level) && SamePrefix(points, e.mid, e.hi, level)
    ensures IsSplit(points, e.lo, SplitAt(points, e.lo, e.mid, level).1, e.mid, LeftLevel(points, e, level)) && LeftLevel(points, e, level) < level
    ensures IsSplit(points, e.mid, SplitAt(points, e.mid, e.hi, level).1, e.hi, RightLevel(points, e, level)) && RightLevel(points, e, level) < level
  {
    SplitHalves(points, e, level);
    HalfSplits(points, e.lo, e.mid, level, false);
    HalfSplits(points, e.mid, e.hi, level, true);
  }
}
