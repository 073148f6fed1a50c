// Levels of one ternary tree in arrays, and the loops of `TernaryDpf::expand` that
// correct and expand them in place: seeds are replaced by the tags derived from them.
module TernaryLevels {
  import opened Blocks
  import opened Words
  import opened DpfTree

  /** Parents' saturated tags and their children's seeds. */
  ghost predicate Holds(tags: seq<Block>, seeds: seq<Block>) {
    |seeds| == 3 * |tags| && forall p :: 0 <= p < |tags| ==> tags[p] == Saturate(Lsb(tags[p]))
  }

  ghost function LevelOf(tags: seq<Block>, seeds: seq<Block>): (l: Level)
    requires Holds(tags, seeds)
    ensures Shaped(3, l) && |l.tags| == |tags|
  {
    Level(seq(|tags|, p requires 0 <= p < |tags| => seeds[3 * p..3 * p + 3]), seq(|tags|, p requires 0 <= p < |tags| => Lsb(tags[p])))
  }

  /** The sums of a level. */
  ghost predicate SumsOf(l: Level, z: seq<Block>) {
    Shaped(3, l) && |z| == 3 && forall j :: 0 <= j < 3 ==> z[j] == DigitSum(l, j)
  }

  /** Corrects node `q` and expands it into its three children. */
  method ExpandNode(prg: Prg, sc: array<Block>, sg: array<Block>, q: nat, tag: Block, sigma: Block, z: seq<Block>) returns (z': seq<Block>)
    requires sc != sg && q < sc.Length && 3 * q + 3 <= sg.Length && |z| == 3
    modifies sc, sg
    ensures var s := Xor(old(sc[q]), And(tag, sigma));
            && sc[..] == old(sc[..])[q := Saturate(Lsb(s))]
            && sg[..] == old(sg[..])[3 * q := prg(s, 0)][3 * q + 1 := prg(s, 1)][3 * q + 2 := prg(s, 2)]
            && z' == [Xor(z[0], prg(s, 0)), Xor(z[1], prg(s, 1)), Xor(z[2], prg(s, 2))]
  {
    var s := Xor(sc[q], And(tag, sigma));
    sg[3 * q], sg[3 * q + 1], sg[3 * q + 2] := prg(s, 0), prg(s, 1), prg(s, 2);
    z' := [Xor(z[0], prg(s, 0)), Xor(z[1], prg(s, 1)), Xor(z[2], prg(s, 2))];
    sc[q] := Saturate(Lsb(s));
  }

  /** The j-th children of the first `q` corrected seeds. */
  ghost function ChildColumn(prg: Prg, c: seq<Block>, q: nat, j: nat): seq<Block>
    requires q <= |c|
  {
    seq(q, r requires 0 <= r < q => prg(c[r], j))
  }

  /** The first `q` nodes hold tags, the others still their seeds. */
  ghost predicate TagsDone(c: seq<Block>, seeds: seq<Block>, sc: seq<Block>, q: nat) {
    && q <= |c| == |seeds| <= |sc|
    && (forall r {:trigger c[r]} :: 0 <= r < q ==> sc[r] == Saturate(Lsb(c[r])))
    && (forall r {:trigger seeds[r]} :: q <= r < |seeds| ==> sc[r] == seeds[r])
  }

  /** The children of the first `q` nodes are stored. */
  ghost predicate KidsDone(prg: Prg, c: seq<Block>, sg: seq<Block>, q: nat) {
    && q <= |c| && 3 * |c| <= |sg|
    && (forall r {:trigger c[r]} :: 0 <= r < q ==> sg[3 * r] == prg(c[r], 0) && sg[3 * r + 1] == prg(c[r], 1) && sg[3 * r + 2] == prg(c[r], 2))
  }

  /** The children of the first `q` nodes are summed. */
  ghost predicate SumsDone(prg: Prg, c: seq<Block>, z: seq<Block>, q: nat) {
    q <= |c| && |z| == 3 && forall j :: 0 <= j < 3 ==> z[j] == XorAll(ChildColumn(prg, c, q, j))
  }

  ghost predicate Progress(prg: Prg, c: seq<Block>, seeds: seq<Block>, sc: seq<Block>, sg: seq<Block>, z: seq<Block>, q: nat) {
    TagsDone(c, seeds, sc, q) && KidsDone(prg, c, sg, q) && SumsDone(prg, c, z, q)
  }

  lemma ColumnPush(prg: Prg, c: seq<Block>, q: nat, j: nat)
    requires q < |c|
    ensures XorAll(ChildColumn(prg, c, q + 1, j)) == Xor(XorAll(ChildColumn(prg, c, q, j)), prg(c[q], j))
  {
    XorAllPush(ChildColumn(prg, c, q, j), prg(c[q], j));
    assert ChildColumn(prg, c, q + 1, j) == ChildColumn(prg, c, q, j) + [prg(c[q], j)];
  }

  lemma TagStep(c: seq<Block>, seeds: seq<Block>, sc: seq<Block>, q: nat)
    requires TagsDone(c, seeds, sc, q) && q < |c|
    ensures TagsDone(c, seeds, sc[q := Saturate(Lsb(c[q]))], q + 1)
  {
  }

  lemma KidsStep(prg: Prg, c: seq<Block>, sg: seq<Block>, q: nat)
    requires KidsDone(prg, c, sg, q) && q < |c|
    ensures KidsDone(prg, c, sg[3 * q := prg(c[q], 0)][3 * q + 1 := prg(c[q], 1)][3 * q + 2 := prg(c[q], 2)], q + 1)
  {
  }

  lemma SumsStep(prg: Prg, c: seq<Block>, z: seq<Block>, q: nat)
    requires SumsDone(prg, c, z, q) && q < |c|
    ensures SumsDone(prg, c, [Xor(z[0], prg(c[q], 0)), Xor(z[1], prg(c[q], 1)), Xor(z[2], prg(c[q], 2))], q + 1)
  {
    ColumnPush(prg, c, q, 0);
    ColumnPush(prg, c, q, 1);
    ColumnPush(prg, c, q, 2);
  }

  lemma ProgressStep(prg: Prg, c: seq<Block>, seeds: seq<Block>, sc: seq<Block>, sg: seq<Block>, z: seq<Block>, q: nat, s: Block)
    requires Progress(prg, c, seeds, sc, sg, z, q) && q < |c| && s == c[q]
    ensures Progress(prg, c, seeds, sc[q := Saturate(Lsb(s))],
                     sg[3 * q := prg(s, 0)][3 * q + 1 := prg(s, 1)][3 * q + 2 := prg(s, 2)],
                     [Xor(z[0], prg(s, 0)), Xor(z[1], prg(s, 1)), Xor(z[2], prg(s, 2))], q + 1)
  {
    TagStep(c, seeds, sc, q);
    KidsStep(prg, c, sg, q);
    SumsStep(prg, c, z, q);
  }

  /** The corrected seed of node `3L + j`. */
  lemma CorrectedNode(tags: seq<Block>, seeds: seq<Block>, sigma: seq<Block>, p: nat, j: nat)
    requires Holds(tags, seeds) && |sigma| == 3 && p < |tags| && j < 3
    ensures |Corrected(3, LevelOf(tags, seeds), sigma)| == |seeds|
    ensures Corrected(3, LevelOf(tags, seeds), sigma)[3 * p + j] == Xor(seeds[3 * p + j], And(tags[p], sigma[j]))
  {
    IndexJoin(3, |tags|, p, j);
    MaskIsAnd(Lsb(tags[p]), sigma[j]);
  }

  method ExpandChild(prg: Prg, tp: array<Block>, sc: array<Block>, sg: array<Block>, l: nat, j: nat, sigma: seq<Block>, z: seq<Block>,
                     ghost tags: seq<Block>, ghost seeds: seq<Block>, ghost c: seq<Block>) returns (z': seq<Block>)
    requires tp != sc && tp != sg && sc != sg && Holds(tags, seeds) && |sigma| == 3 && l < |tags| <= tp.Length && j < 3
    requires c == Corrected(3, LevelOf(tags, seeds), sigma) && tp[l] == tags[l]
    requires Progress(prg, c, seeds, sc[..], sg[..], z, 3 * l + j)
    modifies sc, sg
    ensures Progress(prg, c, seeds, sc[..], sg[..], z', 3 * l + j + 1)
  {
    var q := 3 * l + j;
    CorrectedNode(tags, seeds, sigma, l, j);
    assert sc[q] == seeds[q];
    ProgressStep(prg, c, seeds, sc[..], sg[..], z, q, c[q]);
    z' := ExpandNode(prg, sc, sg, q, tp[l], sigma[j], z);
  }

  /** All nodes of a level, parent by parent. */
  method ExpandParents(prg: Prg, tp: array<Block>, sc: array<Block>, sg: array<Block>, m: nat, sigma: seq<Block>,
                       ghost tags: seq<Block>, ghost seeds: seq<Block>, ghost c: seq<Block>) returns (z: seq<Block>)
    requires tp != sc && tp != sg && sc != sg && |sigma| == 3
    requires m <= tp.Length && 3 * m <= sc.Length && 9 * m <= sg.Length && tags == tp[..m] && seeds == sc[..3 * m] && Holds(tags, seeds)
    requires c == Corrected(3, LevelOf(tags, seeds), sigma)
    modifies sc, sg
    ensures Progress(prg, c, seeds, sc[..], sg[..], z, 3 * m)
  {
    z := [ZERO, ZERO, ZERO];
    var l := 0;
    while l < m
      invariant 0 <= l <= m && Progress(prg, c, seeds, sc[..], sg[..], z, 3 * l)
    {
      var j := 0;
      while j < 3
        invariant 0 <= j <= 3 && Progress(prg, c, seeds, sc[..], sg[..], z, 3 * l + j)
      {
        assert tp[l] == tags[l];
        z := ExpandChild(prg, tp, sc, sg, l, j, sigma, z, tags, seeds, c);
        j := j + 1;
      }
      l := l + 1;
    }
  }

  method ExpandLevel(prg: Prg, tp: array<Block>, sc: array<Block>, sg: array<Block>, m: nat, sigma: seq<Block>) returns (z: seq<Block>)
    requires tp != sc && tp != sg && sc != sg && |sigma| == 3
    requires m <= tp.Length && 3 * m <= sc.Length && 9 * m <= sg.Length && Holds(tp[..m], sc[..3 * m])
    modifies sc, sg
    ensures Holds(sc[..3 * m], sg[..9 * m])
    ensures LevelOf(sc[..3 * m], sg[..9 * m]) == Expanded(3, prg, Corrected(3, LevelOf(old(tp[..m]), old(sc[..3 * m])), sigma))
    ensures SumsOf(LevelOf(sc[..3 * m], sg[..9 * m]), z)
  {
    ghost var tags, seeds := tp[..m], sc[..3 * m];
    ghost var c := Corrected(3, LevelOf(tags, seeds), sigma);
    z := ExpandParents(prg, tp, sc, sg, m, sigma, tags, seeds, c);
    ProgressDone(prg, c, seeds, sc[..], sg[..], z, m);
  }

  lemma NodeDone(prg: Prg, c: seq<Block>, seeds: seq<Block>, sc: seq<Block>, sg: seq<Block>, z: seq<Block>, m: nat, p: nat)
    requires Progress(prg, c, seeds, sc, sg, z, 3 * m) && |c| == 3 * m && p < 3 * m
    ensures sc[p] == Saturate(Lsb(c[p])) && Lsb(sc[p]) == Lsb(c[p])
    ensures 3 * p + 3 <= 9 * m && sg[..9 * m][3 * p..3 * p + 3] == Kids(3, prg, c[p])
  {
    BitLaws();
    var kids := sg[..9 * m][3 * p..3 * p + 3];
    assert kids[0] == sg[3 * p] && kids[1] == sg[3 * p + 1] && kids[2] == sg[3 * p + 2];
  }

  lemma ProgressDone(prg: Prg, c: seq<Block>, seeds: seq<Block>, sc: seq<Block>, sg: seq<Block>, z: seq<Block>, m: nat)
    requires Progress(prg, c, seeds, sc, sg, z, 3 * m) && |c| == 3 * m
    ensures Holds(sc[..3 * m], sg[..9 * m])
    ensures LevelOf(sc[..3 * m], sg[..9 * m]) == Expanded(3, prg, c) && SumsOf(Expanded(3, prg, c), z)
  {
    var tags, kids := sc[..3 * m], sg[..9 * m];
    forall p | 0 <= p < 3 * m ensures tags[p] == Saturate(Lsb(c[p])) && Lsb(tags[p]) == Lsb(c[p]) && kids[3 * p..3 * p + 3] == Kids(3, prg, c[p]) {
      NodeDone(prg, c, seeds, sc, sg, z, m, p);
    }
    var l := Expanded(3, prg, c);
    forall j | 0 <= j < 3 ensures z[j] == DigitSum(l, j) {
      assert Column(l, j) == ChildColumn(prg, c, 3 * m, j);
    }
    assert LevelOf(tags, kids).kids == l.kids && LevelOf(tags, kids).tags == l.tags;
  }
}
