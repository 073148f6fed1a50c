// The seed tree shared by the regular (arity 2) and ternary (arity 3) distributed
// point functions, for one party and one tree.
//
// A level holds, for every parent node, its tag and the not yet corrected seeds
// of its children. Correcting a child under its parent's tag gives the seed from
// which its own tag and children are derived. The results relate the trees of two
// parties that apply the same corrections.
module DpfTree {
  import opened Blocks
  import opened Words

  /** `prg(seed, j)` is the seed of the j-th child: an arbitrary function. */
  type Prg = (Block, nat) -> Block

  datatype Level = Level(kids: seq<seq<Block>>, tags: seq<bool>)

  ghost predicate Shaped(arity: nat, l: Level) {
    arity > 0 && |l.kids| == |l.tags| && forall p :: 0 <= p < |l.kids| ==> |l.kids[p]| == arity
  }

  /** The corrected seed of child `j` of parent `p`. */
  ghost function Fix(l: Level, sigma: seq<Block>, p: nat, j: nat): Block
    requires p < |l.kids| == |l.tags| && j < |l.kids[p]| == |sigma|
  {
    Xor(l.kids[p][j], Mask(l.tags[p], sigma[j]))
  }

  ghost function FixAt(arity: nat, l: Level, sigma: seq<Block>, i: nat): Block
    requires Shaped(arity, l) && |sigma| == arity && i < arity * |l.tags|
  {
    IndexSplit(arity, |l.tags|, i);
    Fix(l, sigma, i / arity, i % arity)
  }

  /** The corrected seeds of a whole level; node `i` is child `i % arity` of parent `i / arity`. */
  ghost function Corrected(arity: nat, l: Level, sigma: seq<Block>): seq<Block>
    requires Shaped(arity, l) && |sigma| == arity
  {
    seq(arity * |l.tags|, i requires 0 <= i < arity * |l.tags| => FixAt(arity, l, sigma, i))
  }

  ghost function Kids(arity: nat, prg: Prg, seed: Block): seq<Block> {
    seq(arity, j requires 0 <= j < arity => prg(seed, j))
  }

  /** Expand every corrected seed. */
  ghost function Expanded(arity: nat, prg: Prg, cs: seq<Block>): Level {
    Level(seq(|cs|, i requires 0 <= i < |cs| => Kids(arity, prg, cs[i])),
          seq(|cs|, i requires 0 <= i < |cs| => Lsb(cs[i])))
  }

  ghost function Column(l: Level, j: nat): seq<Block>
    requires forall p :: 0 <= p < |l.kids| ==> j < |l.kids[p]|
  {
    seq(|l.kids|, p requires 0 <= p < |l.kids| => l.kids[p][j])
  }

  /** z[j]: the sum of the j-th children of a whole level. */
  ghost function DigitSum(l: Level, j: nat): Block
    requires forall p :: 0 <= p < |l.kids| ==> j < |l.kids[p]|
  {
    XorAll(Column(l, j))
  }

  /** The joint sum z[j] of both parties. */
  ghost function JointSum(l0: Level, l1: Level, j: nat): Block
    requires forall p :: 0 <= p < |l0.kids| ==> j < |l0.kids[p]|
    requires forall p :: 0 <= p < |l1.kids| ==> j < |l1.kids[p]|
  {
    Xor(DigitSum(l0, j), DigitSum(l1, j))
  }

  /** The trees of two parties agree below every parent but `path`, whose tags differ. */
  ghost predicate OnePath(arity: nat, l0: Level, l1: Level, path: nat) {
    && Shaped(arity, l0) && Shaped(arity, l1) && |l0.tags| == |l1.tags|
    && path < |l0.tags|
    && l0.tags[path] != l1.tags[path]
    && (forall p :: 0 <= p < |l0.tags| && p != path ==> l0.tags[p] == l1.tags[p])
    && (forall p :: 0 <= p < |l0.kids| && p != path ==> l0.kids[p] == l1.kids[p])
  }

  /** Two parties' corrected seeds agree outside node `p`, whose tags differ. */
  ghost predicate OneNode(c0: seq<Block>, c1: seq<Block>, p: nat) {
    && p < |c0| == |c1|
    && Lsb(c0[p]) != Lsb(c1[p])
    && forall i :: 0 <= i < |c0| && i != p ==> c0[i] == c1[i]
  }

  /** A whole-level sum collapses to the one active path. */
  lemma SumCollapses(arity: nat, l0: Level, l1: Level, path: nat, j: nat)
    requires OnePath(arity, l0, l1, path) && j < arity
    ensures JointSum(l0, l1, j) == Xor(l0.kids[path][j], l1.kids[path][j])
  {
    SumOfTwins(Column(l0, j), Column(l1, j), path);
  }

  /** What a correction must satisfy: cancel the inactive children of the active
      node and make the tags of its active child differ. */
  ghost predicate Cancels(arity: nat, l0: Level, l1: Level, digit: nat, sigma: seq<Block>)
    requires Shaped(arity, l0) && Shaped(arity, l1)
  {
    && digit < arity && |sigma| == arity
    && (forall j :: 0 <= j < arity && j != digit ==> sigma[j] == JointSum(l0, l1, j))
    && Lsb(sigma[digit]) != Lsb(JointSum(l0, l1, digit))
  }

  /** A child off the active path is corrected to the same seed by both parties. */
  lemma InactiveChild(arity: nat, l0: Level, l1: Level, path: nat, digit: nat, sigma: seq<Block>, p: nat, j: nat)
    requires OnePath(arity, l0, l1, path) && Cancels(arity, l0, l1, digit, sigma)
    requires p < |l0.tags| && j < arity && (p != path || j != digit)
    ensures Fix(l0, sigma, p, j) == Fix(l1, sigma, p, j)
  {
    if p == path {
      SumCollapses(arity, l0, l1, path, j);
      CancelOne(l0.kids[p][j], l1.kids[p][j], l0.tags[path]);
    }
  }

  lemma ActiveChild(arity: nat, l0: Level, l1: Level, path: nat, digit: nat, sigma: seq<Block>)
    requires OnePath(arity, l0, l1, path) && Cancels(arity, l0, l1, digit, sigma)
    ensures Lsb(Fix(l0, sigma, path, digit)) != Lsb(Fix(l1, sigma, path, digit))
  {
    SumCollapses(arity, l0, l1, path, digit);
    LsbStep(l0.kids[path][digit], l1.kids[path][digit], sigma[digit], l0.tags[path]);
  }

  /** Corrected seeds agree everywhere but at the active child, whose tags differ. */
  lemma CorrectedOnePath(arity: nat, l0: Level, l1: Level, path: nat, digit: nat, sigma: seq<Block>)
    requires OnePath(arity, l0, l1, path) && Cancels(arity, l0, l1, digit, sigma)
    ensures OneNode(Corrected(arity, l0, sigma), Corrected(arity, l1, sigma), arity * path + digit)
  {
    var n := |l0.tags|;
    var c0, c1 := Corrected(arity, l0, sigma), Corrected(arity, l1, sigma);
    IndexJoin(arity, n, path, digit);
    ActiveChild(arity, l0, l1, path, digit, sigma);
    forall i | 0 <= i < |c0| && i != arity * path + digit ensures c0[i] == c1[i] {
      IndexSplit(arity, n, i);
      InactiveChild(arity, l0, l1, path, digit, sigma, i / arity, i % arity);
    }
  }

  /** The invariant "exactly one node differs" survives expansion. */
  lemma ExpandedOnePath(arity: nat, prg: Prg, c0: seq<Block>, c1: seq<Block>, p: nat)
    requires OneNode(c0, c1, p) && arity > 0
    ensures OnePath(arity, Expanded(arity, prg, c0), Expanded(arity, prg, c1), p)
  {
  }
}
