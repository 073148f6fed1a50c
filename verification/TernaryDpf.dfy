/** Two-party ternary DPF (`TernaryDpf::expand`), for one of its trees. */
module TernaryDpf {
  import opened Blocks
  import opened DpfTree
  import opened TernaryLevels
  import opened TernaryRound

  function Pow3(n: nat): (r: nat)
    ensures r > 0
  {
    if n == 0 then 1 else 3 * Pow3(n - 1)
  }

  lemma {:induction false} Pow3Monotone(a: nat, b: nat)
    requires a <= b
    ensures Pow3(a) <= Pow3(b)
  {
    if a < b {
      Pow3Monotone(a, b - 1);
    }
  }

  /** `log3ceil`. */
  method Log3Ceil(x: nat) returns (i: nat)
    ensures x <= Pow3(i) && (i > 0 ==> Pow3(i - 1) < x)
  {
    i := 0;
    var v := 1;
    while v < x
      invariant v == Pow3(i) && (i > 0 ==> Pow3(i - 1) < x)
      decreases x - v
    {
      v := v * 3;
      i := i + 1;
    }
  }

  /** An `F3x32`: 32 two-bit digits, least significant first. */
  type Point = s: seq<nat> | |s| == 32 && forall i :: 0 <= i < 32 ==> s[i] < 4 witness seq(32, i => 0)

  /** The check on a point share: `depth` ternary digits and nothing above. */
  predicate Fits(pt: Point, depth: nat) {
    forall i :: 0 <= i < 32 ==> if i < depth then pt[i] != 3 else pt[i] == 0
  }

  method CheckPoint(pt: Point, depth: nat) returns (ok: bool)
    requires depth <= 32
    ensures ok == Fits(pt, depth)
  {
    var j := 0;
    while j < depth
      invariant 0 <= j <= depth
      invariant forall i :: 0 <= i < j ==> pt[i] != 3
    {
      if pt[j] == 3 {
        return false;
      }
      j := j + 1;
    }
    while j < 32
      invariant depth <= j <= 32
      invariant forall i :: depth <= i < j ==> pt[i] == 0
    {
      if pt[j] != 0 {
        return false;
      }
      j := j + 1;
    }
    return true;
  }

  /** The digit of the shared point that round `d` branches on. */
  function Digit(pt0: Point, pt1: Point, depth: nat, d: nat): (a: nat)
    requires 0 < d <= depth <= 32
    ensures a < 3
  {
    (pt0[depth - d] + pt1[depth - d]) % 3
  }

  /** The node that the first `d` digits of the shared point lead to. */
  function PathIndex(pt0: Point, pt1: Point, depth: nat, d: nat): (i: nat)
    requires d <= depth <= 32
    ensures i < Pow3(d)
  {
    if d == 0 then 0 else 3 * PathIndex(pt0, pt1, depth, d - 1) + Digit(pt0, pt1, depth, d)
  }

  /** The number whose ternary digits, least significant first, are the digit sums modulo 3 of both shares. */
  function SharedNumber(pt0: Point, pt1: Point, n: nat): (v: nat)
    requires n <= 32
  {
    if n == 0 then 0 else SharedNumber(pt0, pt1, n - 1) + (pt0[n - 1] + pt1[n - 1]) % 3 * Pow3(n - 1)
  }

  /** The digits from position `low` on, as a number; the path appends them from the top. */
  lemma {:induction false} PathAbove(pt0: Point, pt1: Point, depth: nat, d: nat)
    requires d <= depth <= 32
    ensures SharedNumber(pt0, pt1, depth) == SharedNumber(pt0, pt1, depth - d) + PathIndex(pt0, pt1, depth, d) * Pow3(depth - d)
  {
    if d > 0 {
      PathAbove(pt0, pt1, depth, d - 1);
      var low, i, a := depth - d, PathIndex(pt0, pt1, depth, d - 1), Digit(pt0, pt1, depth, d);
      assert SharedNumber(pt0, pt1, low + 1) == SharedNumber(pt0, pt1, low) + a * Pow3(low);
      Distribute(i, a, Pow3(low));
    }
  }

  lemma Distribute(i: nat, a: nat, p: nat)
    ensures (3 * i + a) * p == i * (3 * p) + a * p
  {
  }

  /** Branching on the digits from the most significant ends at the leaf that the digits spell. */
  lemma PathIsNumber(pt0: Point, pt1: Point, depth: nat)
    requires depth <= 32
    ensures PathIndex(pt0, pt1, depth, depth) == SharedNumber(pt0, pt1, depth)
  {
    PathAbove(pt0, pt1, depth, depth);
  }

  /** Buffer sizes 3^depth, 3^depth / 3 and 3^depth / 9 suffice for the levels that use them. */
  ghost predicate Suffice(s: seq<array<Block>>, depth: nat) {
    && |s| == 3 && s[0] != s[1] && s[0] != s[2] && s[1] != s[2]
    && forall d :: 0 <= d <= depth ==> Pow3(d) <= s[d % 3].Length
  }

  lemma Capacity(depth: nat, d: nat)
    requires d <= depth && depth > 0
    ensures Pow3(d) <= if (depth - d) % 3 == 0 then Pow3(depth) else if (depth - d) % 3 == 1 then Pow3(depth) / 3 else Pow3(depth) / 9
  {
    if (depth - d) % 3 == 0 {
      Pow3Monotone(d, depth);
    } else if (depth - d) % 3 == 1 {
      Pow3Monotone(d, depth - 1);
    } else {
      Pow3Monotone(d, depth - 2);
      assert Pow3(depth) == 9 * Pow3(depth - 2);
    }
  }

  method Buffers(depth: nat) returns (s: seq<array<Block>>)
    requires depth > 0
    ensures Suffice(s, depth) && fresh(s)
  {
    var full, third, ninth := new Block[Pow3(depth)](_ => ZERO), new Block[Pow3(depth) / 3](_ => ZERO), new Block[Pow3(depth) / 9](_ => ZERO);
    s := if depth % 3 == 0 then [full, ninth, third] else if depth % 3 == 1 then [third, full, ninth] else [ninth, third, full];
    forall d | 0 <= d <= depth ensures Pow3(d) <= s[d % 3].Length {
      Capacity(depth, d);
    }
  }

  lemma RootLevel(party: bool, tags: seq<Block>, seeds: seq<Block>)
    requires tags == [Saturate(party)] && |seeds| == 3
    ensures Holds(tags, seeds) && SumsOf(LevelOf(tags, seeds), seeds)
    ensures LevelOf(tags, seeds) == Level([seeds], [party])
  {
    BitLaws();
    var l := LevelOf(tags, seeds);
    assert seeds[0..3] == seeds && Lsb(tags[0]) == party;
    assert l.kids == [seeds] && l.tags == [party];
    forall j | 0 <= j < 3 ensures seeds[j] == DigitSum(l, j) {
      assert Column(l, j) == [seeds[j]];
      XorAllSingle([seeds[j]], 0);
    }
  }

  /** Tags and seeds that represent a level, and its sums. */
  ghost predicate Stored(tags: seq<Block>, seeds: seq<Block>, level: Level, z: seq<Block>) {
    Holds(tags, seeds) && level == LevelOf(tags, seeds) && SumsOf(level, z)
  }

  method ExpandBuffers(prg: Prg, tp: array<Block>, sc: array<Block>, sg: array<Block>, d: nat, sigma: seq<Block>, ghost level: Level, ghost z: seq<Block>)
    returns (z': seq<Block>)
    requires tp != sc && tp != sg && sc != sg && |sigma| == 3 && d > 0
    requires Pow3(d - 1) <= tp.Length && Pow3(d) <= sc.Length && Pow3(d + 1) <= sg.Length
    requires Stored(tp[..Pow3(d - 1)], sc[..Pow3(d)], level, z)
    modifies sc, sg
    ensures Stored(sc[..Pow3(d)], sg[..Pow3(d + 1)], Expanded(3, prg, Corrected(3, level, sigma)), z')
  {
    var m := Pow3(d - 1);
    assert Pow3(d + 1) == 9 * m && Pow3(d) == 3 * m;
    z' := ExpandLevel(prg, tp, sc, sg, m, sigma);
  }

  /** A party's base OTs. */
  datatype BaseOts = BaseOts(send: seq<(Block, Block)>, recv: seq<Block>, choice: seq<bool>)

  /** One party's tree, with its three rotating level buffers. */
  class Party {
    const depth: nat
    const s: seq<array<Block>>
    var z: seq<Block>
    /** The level whose seeds were last written, and the tree's level in the buffers. */
    ghost var iter: nat
    ghost var level: Level

    ghost predicate Valid()
      reads this, s
    {
      && Suffice(s, depth) && 0 < iter <= depth
      && Stored(s[(iter - 1) % 3][..Pow3(iter - 1)], s[iter % 3][..Pow3(iter)], level, z)
    }

    /** Level 1 is random; the root's tag is the party index. */
    constructor (party: bool, depth: nat, seeds: seq<Block>)
      requires depth > 0 && |seeds| == 3
      ensures this.depth == depth && Valid() && fresh(s) && iter == 1 && level == Level([seeds], [party])
    {
      this.depth := depth;
      var buffers := Buffers(depth);
      s := buffers;
      z, iter, level := seeds, 1, Level([seeds], [party]);
      new;
      assert Pow3(0) <= s[0].Length && Pow3(1) <= s[1].Length;
      s[0][0] := Saturate(party);
      s[1][0], s[1][1], s[1][2] := seeds[0], seeds[1], seeds[2];
      assert s[0][..Pow3(0)] == [Saturate(party)] && s[1][..Pow3(1)] == seeds;
      RootLevel(party, s[0][..Pow3(0)], s[1][..Pow3(1)]);
    }

    /** Corrects and expands level `d`. */
    method Expand(prg: Prg, d: nat, sigma: seq<Block>)
      requires Valid() && d == iter < depth && |sigma| == 3
      modifies this, s
      ensures Valid() && iter == d + 1 && level == Expanded(3, prg, Corrected(3, old(level), sigma))
    {
      var tp, sc, sg := s[(d - 1) % 3], s[d % 3], s[(d + 1) % 3];
      assert Pow3(d + 1) <= sg.Length && Pow3(d) <= sc.Length && Pow3(d - 1) <= tp.Length;
      z := ExpandBuffers(prg, tp, sc, sg, d, sigma, level, z);
      iter := d + 1;
      level := Expanded(3, prg, Corrected(3, level, sigma));
      assert s[(iter - 1) % 3] == sc && s[iter % 3] == sg;
    }
  }

  ghost predicate OtsMatch(send: seq<(Block, Block)>, recv: seq<Block>, choice: seq<bool>) {
    |send| == |recv| == |choice| && forall i :: 0 <= i < |send| ==> recv[i] == Side(send[i], choice[i])
  }

  /** Base OTs for `count` uses that match in both directions. */
  ghost predicate OtPair(o0: BaseOts, o1: BaseOts, count: nat) {
    && |o0.send| == |o1.send| == count
    && OtsMatch(o0.send, o1.recv, o1.choice) && OtsMatch(o1.send, o0.recv, o0.choice)
  }

  ghost predicate Apart(p0: Party, p1: Party) {
    && p0 != p1 && p0.depth == p1.depth <= 32
    && |p0.s| == |p1.s| == 3 && forall i, j :: 0 <= i < 3 && 0 <= j < 3 ==> p0.s[i] != p1.s[j]
  }

  /** The first OT of round `d`, for `n` trees. */
  function OtStart(n: nat, d: nat): nat {
    if d <= 1 then 0 else OtStart(n, d - 1) + n * 2
  }

  /** `baseOtCount`. */
  lemma {:induction false} OtCount(n: nat, depth: nat)
    ensures OtStart(n, depth + 1) == depth * n * 2
  {
    if depth > 0 {
      OtCount(n, depth - 1);
      assert depth * n == (depth - 1) * n + n;
    }
  }

  /** Every round's OTs are there. */
  lemma {:induction false} Budget(n: nat, k: nat, d: nat, depth: nat)
    requires k < n && 0 < d <= depth
    ensures OtStart(n, d) + 2 * k + 1 < OtStart(n, depth + 1)
    decreases depth
  {
    if d < depth {
      Budget(n, k, d, depth - 1);
    }
  }

  lemma SigmaCancels(l0: Level, l1: Level, z0: seq<Block>, z1: seq<Block>, digit: nat, sigma: seq<Block>, r: Block)
    requires SumsOf(l0, z0) && SumsOf(l1, z1) && IsSigma(sigma, z0, z1, digit, r)
    ensures Cancels(3, l0, l1, digit, sigma)
  {
    forall j | 0 <= j < 3 && j != digit ensures sigma[j] == JointSum(l0, l1, j) {
      XorSelf(Xor(z0[j], z1[j]));
    }
    XorLsb(Xor(z0[digit], z1[digit]), r);
  }

  /** The OTs of tree `k` in the round that starts at `otIdx`. */
  function KeysAt(send: seq<(Block, Block)>, i: nat): Keys
    requires i + 1 < |send|
  {
    Keys(send[i], send[i + 1])
  }

  function ChosenAt(recv: seq<Block>, choice: seq<bool>, i: nat): Chosen
    requires i + 1 < |recv| == |choice|
  {
    Chosen(recv[i], recv[i + 1], choice[i], choice[i + 1])
  }

  /** Tree `k` of `n`, its depth and the two shares of its point. */
  datatype Tree = Tree(n: nat, k: nat, depth: nat, pt0: Point, pt1: Point)

  predicate Sound(t: Tree) {
    t.k < t.n && 0 < t.depth <= 32 && Fits(t.pt0, t.depth) && Fits(t.pt1, t.depth)
  }

  lemma OtsAt(o0: BaseOts, o1: BaseOts, count: nat, i: nat)
    requires OtPair(o0, o1, count) && i + 1 < count
    ensures Correlated(KeysAt(o0.send, i), ChosenAt(o1.recv, o1.choice, i)) && Correlated(KeysAt(o1.send, i), ChosenAt(o0.recv, o0.choice, i))
  {
  }

  lemma DigitsFit(t: Tree, d: nat)
    requires Sound(t) && 0 < d <= t.depth
    ensures t.pt0[t.depth - d] < 3 && t.pt1[t.depth - d] < 3
  {
  }

  method CorrectWith(e: Pads, keys0: Keys, chosen0: Chosen, keys1: Keys, chosen1: Chosen, a0: nat, a1: nat, z0: seq<Block>, z1: seq<Block>,
                     rand0: Block, rand1: Block, ghost l0: Level, ghost l1: Level)
    returns (sigma: seq<Block>)
    requires Correlated(keys0, chosen1) && Correlated(keys1, chosen0) && a0 < 3 && a1 < 3 && SumsOf(l0, z0) && SumsOf(l1, z1)
    ensures |sigma| == 3 && Cancels(3, l0, l1, (a0 + a1) % 3, sigma)
  {
    var sigma1;
    sigma, sigma1 := Round(e, keys0, chosen0, keys1, chosen1, a0, a1, z0, z1, rand0, rand1);
    SigmaCancels(l0, l1, z0, z1, (a0 + a1) % 3, sigma, Xor(WithLsb(rand0, false), WithLsb(rand1, true)));
  }

  /** One interactive round: both parties learn the correction of level `d`, from OTs that no other round uses.
      `otIdx` is the index both have advanced to. */
  method CorrectBoth(e: Pads, o0: BaseOts, o1: BaseOts, otIdx: nat, t: Tree, d: nat, z0: seq<Block>, z1: seq<Block>, rand0: Block, rand1: Block,
                     ghost l0: Level, ghost l1: Level)
    returns (sigma: seq<Block>, otIdx': nat)
    requires Sound(t) && OtPair(o0, o1, OtStart(t.n, t.depth + 1)) && 0 < d <= t.depth && otIdx == OtStart(t.n, d)
    requires SumsOf(l0, z0) && SumsOf(l1, z1)
    ensures otIdx' == OtStart(t.n, d + 1)
    ensures |sigma| == 3 && Cancels(3, l0, l1, (t.pt0[t.depth - d] + t.pt1[t.depth - d]) % 3, sigma)
  {
    var i := otIdx + 2 * t.k;
    Budget(t.n, t.k, d, t.depth);
    OtsAt(o0, o1, OtStart(t.n, t.depth + 1), i);
    DigitsFit(t, d);
    sigma := CorrectWith(e, KeysAt(o0.send, i), ChosenAt(o0.recv, o0.choice, i), KeysAt(o1.send, i), ChosenAt(o1.recv, o1.choice, i),
                         t.pt0[t.depth - d], t.pt1[t.depth - d], z0, z1, rand0, rand1, l0, l1);
    otIdx' := otIdx + t.n * 2;
  }

  /** One level further, the trees still differ in one node. */
  lemma NextPath(prg: Prg, l0: Level, l1: Level, path: nat, digit: nat, sigma: seq<Block>)
    requires OnePath(3, l0, l1, path) && Cancels(3, l0, l1, digit, sigma)
    ensures OnePath(3, Expanded(3, prg, Corrected(3, l0, sigma)), Expanded(3, prg, Corrected(3, l1, sigma)), 3 * path + digit)
  {
    CorrectedOnePath(3, l0, l1, path, digit, sigma);
    ExpandedOnePath(3, prg, Corrected(3, l0, sigma), Corrected(3, l1, sigma), 3 * path + digit);
  }

  /** What the rounds keep: exactly one node differs, on the path of the shared point. */
  ghost predicate OnCourse(l0: Level, l1: Level, t: Tree, d: nat) {
    0 < d <= t.depth <= 32 && OnePath(3, l0, l1, PathIndex(t.pt0, t.pt1, t.depth, d - 1))
  }

  lemma NextOnCourse(prg: Prg, l0: Level, l1: Level, t: Tree, d: nat, digit: nat, sigma: seq<Block>)
    requires OnCourse(l0, l1, t, d) && d < t.depth && digit == Digit(t.pt0, t.pt1, t.depth, d) && Cancels(3, l0, l1, digit, sigma)
    ensures OnCourse(Expanded(3, prg, Corrected(3, l0, sigma)), Expanded(3, prg, Corrected(3, l1, sigma)), t, d + 1)
  {
    NextPath(prg, l0, l1, PathIndex(t.pt0, t.pt1, t.depth, d - 1), digit, sigma);
  }

  method ExpandBoth(prg: Prg, p0: Party, p1: Party, d: nat, sigma: seq<Block>)
    requires Apart(p0, p1) && p0.Valid() && p1.Valid() && d == p0.iter == p1.iter < p0.depth && |sigma| == 3
    modifies p0, p1, p0.s, p1.s
    ensures p0.Valid() && p1.Valid() && p0.iter == p1.iter == d + 1
    ensures p0.level == Expanded(3, prg, Corrected(3, old(p0.level), sigma)) && p1.level == Expanded(3, prg, Corrected(3, old(p1.level), sigma))
  {
    p0.Expand(prg, d, sigma);
    p1.Expand(prg, d, sigma);
  }

  /** Both parties hold level `d` of trees that differ in one node. */
  ghost predicate RoundsInv(p0: Party, p1: Party, t: Tree, d: nat)
    reads p0, p1, p0.s, p1.s
  {
    p0.Valid() && p1.Valid() && d == p0.iter == p1.iter && OnCourse(p0.level, p1.level, t, d)
  }

  method FullRound(prg: Prg, e: Pads, p0: Party, p1: Party, o0: BaseOts, o1: BaseOts, otIdx: nat, t: Tree, d: nat, rand0: Block, rand1: Block)
    returns (otIdx': nat)
    requires Sound(t) && Apart(p0, p1) && p0.depth == t.depth && OtPair(o0, o1, OtStart(t.n, t.depth + 1)) && otIdx == OtStart(t.n, d)
    requires RoundsInv(p0, p1, t, d) && d < t.depth
    modifies p0, p1, p0.s, p1.s
    ensures otIdx' == OtStart(t.n, d + 1) && RoundsInv(p0, p1, t, d + 1)
  {
    var sigma;
    sigma, otIdx' := CorrectBoth(e, o0, o1, otIdx, t, d, p0.z, p1.z, rand0, rand1, p0.level, p1.level);
    NextOnCourse(prg, p0.level, p1.level, t, d, (t.pt0[t.depth - d] + t.pt1[t.depth - d]) % 3, sigma);
    ExpandBoth(prg, p0, p1, d, sigma);
  }

  /** The last round corrects only: the leaf seeds differ in one node, the shared point, and all OTs are used. */
  method LastRound(e: Pads, o0: BaseOts, o1: BaseOts, otIdx: nat, t: Tree, z0: seq<Block>, z1: seq<Block>, rand0: Block, rand1: Block,
                   ghost l0: Level, ghost l1: Level)
    returns (sigma: seq<Block>, otIdx': nat)
    requires Sound(t) && OtPair(o0, o1, OtStart(t.n, t.depth + 1)) && otIdx == OtStart(t.n, t.depth)
    requires SumsOf(l0, z0) && SumsOf(l1, z1) && OnCourse(l0, l1, t, t.depth)
    ensures otIdx' == OtStart(t.n, t.depth + 1) && |sigma| == 3 && LeavesDiffer(l0, l1, t, sigma)
  {
    sigma, otIdx' := CorrectBoth(e, o0, o1, otIdx, t, t.depth, z0, z1, rand0, rand1, l0, l1);
    CorrectedOnePath(3, l0, l1, PathIndex(t.pt0, t.pt1, t.depth, t.depth - 1), Digit(t.pt0, t.pt1, t.depth, t.depth), sigma);
    PathIsNumber(t.pt0, t.pt1, t.depth);
  }

  ghost predicate LeavesDiffer(l0: Level, l1: Level, t: Tree, sigma: seq<Block>) {
    && Shaped(3, l0) && Shaped(3, l1) && |sigma| == 3 && t.depth <= 32
    && OneNode(Corrected(3, l0, sigma), Corrected(3, l1, sigma), SharedNumber(t.pt0, t.pt1, t.depth))
  }

  method LastOf(e: Pads, p0: Party, p1: Party, o0: BaseOts, o1: BaseOts, otIdx: nat, t: Tree, rand0: Block, rand1: Block)
    returns (sigma: seq<Block>, otIdx': nat)
    requires Sound(t) && OtPair(o0, o1, OtStart(t.n, t.depth + 1)) && otIdx == OtStart(t.n, t.depth) && RoundsInv(p0, p1, t, t.depth)
    ensures otIdx' == OtStart(t.n, t.depth + 1) && RoundsInv(p0, p1, t, t.depth) && LeavesDiffer(p0.level, p1.level, t, sigma)
  {
    sigma, otIdx' := LastRound(e, o0, o1, otIdx, t, p0.z, p1.z, rand0, rand1, p0.level, p1.level);
  }

  method ExpandRounds(prg: Prg, e: Pads, p0: Party, p1: Party, o0: BaseOts, o1: BaseOts, t: Tree, rand0: nat -> Block, rand1: nat -> Block)
    returns (otIdx: nat)
    requires Sound(t) && Apart(p0, p1) && p0.depth == t.depth && OtPair(o0, o1, OtStart(t.n, t.depth + 1)) && RoundsInv(p0, p1, t, 1)
    modifies p0, p1, p0.s, p1.s
    ensures otIdx == OtStart(t.n, t.depth) && RoundsInv(p0, p1, t, t.depth)
  {
    var d := 1;
    otIdx := 0;
    while d != t.depth
      invariant 0 < d <= t.depth && otIdx == OtStart(t.n, d) && RoundsInv(p0, p1, t, d)
      decreases t.depth - d
    {
      otIdx := FullRound(prg, e, p0, p1, o0, o1, otIdx, t, d, rand0(d), rand1(d));
      d := d + 1;
    }
  }

  /** All rounds. They use exactly the base OTs and leave leaf seeds that differ in one node, the shared point. */
  method Rounds(prg: Prg, e: Pads, p0: Party, p1: Party, o0: BaseOts, o1: BaseOts, t: Tree, rand0: nat -> Block, rand1: nat -> Block)
    returns (sigma: seq<Block>, otIdx: nat)
    requires Sound(t) && Apart(p0, p1) && p0.depth == t.depth && OtPair(o0, o1, OtStart(t.n, t.depth + 1)) && RoundsInv(p0, p1, t, 1)
    modifies p0, p1, p0.s, p1.s
    ensures RoundsInv(p0, p1, t, t.depth) && LeavesDiffer(p0.level, p1.level, t, sigma) && otIdx == OtStart(t.n, t.depth + 1)
  {
    otIdx := ExpandRounds(prg, e, p0, p1, o0, o1, t, rand0, rand1);
    sigma, otIdx := LastOf(e, p0, p1, o0, o1, otIdx, t, rand0(t.depth), rand1(t.depth));
  }

  // ---------------------------------------------------------------- leaves

  /** The leaves of a tree for a domain: the first `domain` corrected seeds. `conv` turns a seed into a value. */
  ghost predicate LeavesOf(conv: Block -> Block, c: seq<Block>, domain: nat, tags: seq<bool>, vals: seq<Block>) {
    && domain <= |c| && |tags| == |vals| == domain
    && forall i :: 0 <= i < domain ==> tags[i] == Lsb(c[i]) && vals[i] == conv(c[i])
  }

  /** The leaves fixed so far. */
  ghost predicate FixedSoFar(conv: Block -> Block, c: seq<Block>, tags: seq<bool>, vals: seq<Block>, sum: Block, n: nat) {
    LeavesOf(conv, c, n, tags, vals) && sum == XorAll(vals)
  }

  lemma FixedPush(conv: Block -> Block, c: seq<Block>, tags: seq<bool>, vals: seq<Block>, sum: Block, n: nat, s: Block)
    requires FixedSoFar(conv, c, tags, vals, sum, n) && n < |c| && s == c[n]
    ensures FixedSoFar(conv, c, tags + [Lsb(s)], vals + [conv(s)], Xor(sum, conv(s)), n + 1)
  {
    XorAllPush(vals, conv(s));
  }

  /** The children of parent `l`, as far as they belong to the domain. */
  method FixParent(conv: Block -> Block, tag: Block, sc: array<Block>, sigma: seq<Block>, l: nat, w: nat, ghost c: seq<Block>,
                   tags: seq<bool>, vals: seq<Block>, sum: Block)
    returns (tags': seq<bool>, vals': seq<Block>, sum': Block)
    requires |sigma| == 3 && w <= 3 && 3 * l + w <= sc.Length && 3 * l + w <= |c|
    requires forall j :: 0 <= j < w ==> c[3 * l + j] == Xor(sc[3 * l + j], And(tag, sigma[j]))
    requires FixedSoFar(conv, c, tags, vals, sum, 3 * l)
    ensures FixedSoFar(conv, c, tags', vals', sum', 3 * l + w)
  {
    tags', vals', sum' := tags, vals, sum;
    var j := 0;
    while j < w
      invariant 0 <= j <= w && FixedSoFar(conv, c, tags', vals', sum', 3 * l + j)
    {
      var s := Xor(sc[3 * l + j], And(tag, sigma[j]));
      FixedPush(conv, c, tags', vals', sum', 3 * l + j, s);
      tags', vals', sum' := tags' + [Lsb(s)], vals' + [conv(s)], Xor(sum', conv(s));
      j := j + 1;
    }
  }

  /** Fixing the last layer; only leaves of the domain count. */
  method FixLeaves(conv: Block -> Block, tp: array<Block>, sc: array<Block>, sigma: seq<Block>, m: nat, domain: nat)
    returns (tags: seq<bool>, vals: seq<Block>, sum: Block)
    requires |sigma| == 3 && m <= tp.Length && 3 * m <= sc.Length && domain <= 3 * m && Holds(tp[..m], sc[..3 * m])
    ensures FixedSoFar(conv, Corrected(3, LevelOf(tp[..m], sc[..3 * m]), sigma), tags, vals, sum, domain)
  {
    ghost var c := Corrected(3, LevelOf(tp[..m], sc[..3 * m]), sigma);
    tags, vals, sum := [], [], ZERO;
    var l := 0;
    while 3 * l < domain
      invariant 0 <= l && 3 * l <= domain + 2 && |c| == 3 * m
      invariant FixedSoFar(conv, c, tags, vals, sum, if 3 * l <= domain then 3 * l else domain)
    {
      var w := if domain - 3 * l < 3 then domain - 3 * l else 3;
      forall j | 0 <= j < w ensures c[3 * l + j] == Xor(sc[3 * l + j], And(tp[l], sigma[j])) {
        CorrectedNode(tp[..m], sc[..3 * m], sigma, l, j);
      }
      tags, vals, sum := FixParent(conv, tp[l], sc, sigma, l, w, c, tags, vals, sum);
      l := l + 1;
    }
  }

  /** The mask sums of both parties differ by the two masks at the shared point. */
  lemma SumsDiffer(conv: Block -> Block, c0: seq<Block>, c1: seq<Block>, p: nat, domain: nat,
                   tags0: seq<bool>, vals0: seq<Block>, tags1: seq<bool>, vals1: seq<Block>)
    requires OneNode(c0, c1, p) && p < domain
    requires LeavesOf(conv, c0, domain, tags0, vals0) && LeavesOf(conv, c1, domain, tags1, vals1)
    ensures Xor(XorAll(vals0), XorAll(vals1)) == Xor(vals0[p], vals1[p])
  {
    SumOfTwins(vals0, vals1, p);
  }

  /** The final correction, opened by both parties. */
  function Gamma(sum0: Block, v0: Block, sum1: Block, v1: Block): Block {
    Xor(Xor(Xor(v1, sum1), sum0), v0)
  }

  function Output(tag: bool, leaf: Block, gamma: Block): Block {
    Xor(Mask(tag, gamma), leaf)
  }

  lemma GammaSymmetric(sum0: Block, v0: Block, sum1: Block, v1: Block)
    ensures Gamma(sum0, v0, sum1, v1) == Gamma(sum1, v1, sum0, v0)
    ensures Gamma(sum0, v0, sum1, v1) == Xor(Xor(sum0, sum1), Xor(v0, v1))
  {
    BitLaws();
    Extensional(Gamma(sum0, v0, sum1, v1), Gamma(sum1, v1, sum0, v0));
    Extensional(Gamma(sum0, v0, sum1, v1), Xor(Xor(sum0, sum1), Xor(v0, v1)));
  }

  lemma ActiveOutput(t: bool, a: Block, b: Block, v: Block)
    ensures Xor(Output(t, a, Xor(Xor(a, b), v)), Output(!t, b, Xor(Xor(a, b), v))) == v
  {
    BitLaws();
    Extensional(Xor(Output(t, a, Xor(Xor(a, b), v)), Output(!t, b, Xor(Xor(a, b), v))), v);
  }

  /** Outputs share the value at the shared point and zero elsewhere; tags share the indicator of the point. */
  lemma LeafShares(conv: Block -> Block, c0: seq<Block>, c1: seq<Block>, p: nat, domain: nat,
                   tags0: seq<bool>, vals0: seq<Block>, tags1: seq<bool>, vals1: seq<Block>, gamma: Block, v: Block, i: nat)
    requires OneNode(c0, c1, p) && i < domain
    requires LeavesOf(conv, c0, domain, tags0, vals0) && LeavesOf(conv, c1, domain, tags1, vals1)
    requires gamma == Xor(Xor(XorAll(vals0), XorAll(vals1)), v)
    ensures (tags0[i] != tags1[i]) == (i == p)
    ensures Xor(Output(tags0[i], vals0[i], gamma), Output(tags1[i], vals1[i], gamma)) == Mask(i == p, v)
  {
    if i == p {
      SumsDiffer(conv, c0, c1, p, domain, tags0, vals0, tags1, vals1);
      ActiveOutput(tags0[i], vals0[i], vals1[i], v);
    } else {
      XorSelf(Output(tags0[i], vals0[i], gamma));
    }
  }
}
