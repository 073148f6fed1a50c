// Levels of many trees as rows of blocks, one column per tree, and the loops of
// `RegularDpf::implExpand` that correct and expand them in place.
module RegularRows {
  import opened Blocks
  import opened DpfTree
  import opened RegularTree

  /** A row of seeds corrected under the parents' saturated tags. */
  function FixRow(tag: Row, seed: Row, sigma: Row): (r: Row)
    requires |tag| == |seed| == |sigma|
    ensures |r| == |seed|
  {
    seq(|seed|, k requires 0 <= k < |seed| => Xor(seed[k], And(tag[k], sigma[k])))
  }

  function ChildRow(c: Cipher, s: Row, b: nat): (r: Row)
    ensures |r| == |s|
  {
    seq(|s|, k requires 0 <= k < |s| => Child(c, s[k], b))
  }

  function TagRow(s: Row): (r: Row)
    ensures |r| == |s|
  {
    seq(|s|, k requires 0 <= k < |s| => Saturate(Lsb(s[k])))
  }

  function ZeroRow(n: nat): (r: Row)
    ensures |r| == n
  {
    seq(n, k => ZERO)
  }

  function SumRows(rows: seq<Row>, n: nat): (r: Row)
    requires Wide(rows, n)
    ensures |r| == n
  {
    if rows == [] then ZeroRow(n) else XorRow(SumRows(rows[..|rows| - 1], n), rows[|rows| - 1])
  }

  lemma SumRowsPush(rows: seq<Row>, n: nat, r: Row)
    requires Wide(rows, n) && |r| == n
    ensures Wide(rows + [r], n) && SumRows(rows + [r], n) == XorRow(SumRows(rows, n), r)
  {
    assert (rows + [r])[..|rows|] == rows;
  }

  /** Corrects one row of seeds and expands it: the children's rows, the row of tags that
      replaces the seeds, and the updated sums. */
  method ExpandRow(c: Cipher, tag: Row, seed: Row, sigma: Row, z0: Row, z1: Row)
    returns (left: Row, right: Row, tag': Row, z0': Row, z1': Row)
    requires |tag| == |seed| == |sigma| == |z0| == |z1|
    ensures var s := FixRow(tag, seed, sigma);
            && left == ChildRow(c, s, 0) && right == ChildRow(c, s, 1) && tag' == TagRow(s)
            && z0' == XorRow(z0, left) && z1' == XorRow(z1, right)
  {
    left, right, tag', z0', z1' := [], [], [], [], [];
    ghost var fixed := FixRow(tag, seed, sigma);
    var k := 0;
    while k < |seed|
      invariant 0 <= k <= |seed| && |left| == |right| == |tag'| == |z0'| == |z1'| == k
      invariant left == ChildRow(c, fixed, 0)[..k] && right == ChildRow(c, fixed, 1)[..k] && tag' == TagRow(fixed)[..k]
      invariant forall q :: 0 <= q < k ==> z0'[q] == Xor(z0[q], left[q]) && z1'[q] == Xor(z1[q], right[q])
    {
      var s := Xor(seed[k], And(tag[k], sigma[k]));
      var temp := c.aes(s);
      left := left + [c.roundEnc(temp, s)];
      right := right + [c.add64(temp, s)];
      z0' := z0' + [Xor(z0[k], left[k])];
      z1' := z1' + [Xor(z1[k], right[k])];
      tag' := tag' + [Saturate(Lsb(s))];
      k := k + 1;
    }
  }

  /** The rows of one level: corrected seeds, their tags and their children. */
  datatype Rows = Rows(fixed: seq<Row>, tags: seq<Row>, left: seq<Row>, right: seq<Row>)

  ghost predicate FixedRow(tags: seq<Row>, seeds: seq<Row>, sigma: seq<Row>, row: Row, i: nat)
    requires |sigma| == 2 && i / 2 < |tags| && i < |seeds|
  {
    |tags[i / 2]| == |seeds[i]| == |sigma[i % 2]| && row == FixRow(tags[i / 2], seeds[i], sigma[i % 2])
  }

  ghost predicate ExpandedRow(c: Cipher, r: Rows, i: nat)
    requires i < |r.fixed| == |r.tags| == |r.left| == |r.right|
  {
    r.tags[i] == TagRow(r.fixed[i]) && r.left[i] == ChildRow(c, r.fixed[i], 0) && r.right[i] == ChildRow(c, r.fixed[i], 1)
  }

  /** `r` is what correcting and expanding the first `m` seed rows gives. */
  ghost predicate RowsOf(c: Cipher, tags: seq<Row>, seeds: seq<Row>, sigma: seq<Row>, r: Rows, m: nat, n: nat) {
    && |sigma| == 2 && m <= |seeds| && m <= 2 * |tags|
    && |r.fixed| == |r.tags| == |r.left| == |r.right| == m && Wide(r.left, n) && Wide(r.right, n) && Wide(r.tags, n)
    && (forall i :: 0 <= i < m ==> FixedRow(tags, seeds, sigma, r.fixed[i], i))
    && (forall i :: 0 <= i < m ==> ExpandedRow(c, r, i))
  }

  lemma RowsPush(c: Cipher, tags: seq<Row>, seeds: seq<Row>, sigma: seq<Row>, r: Rows, m: nat, n: nat, s: Row, r': Rows)
    requires RowsOf(c, tags, seeds, sigma, r, m, n) && m < |seeds| && m < 2 * |tags|
    requires FixedRow(tags, seeds, sigma, s, m) && |s| == n
    requires r' == Rows(r.fixed + [s], r.tags + [TagRow(s)], r.left + [ChildRow(c, s, 0)], r.right + [ChildRow(c, s, 1)])
    ensures RowsOf(c, tags, seeds, sigma, r', m + 1, n)
  {
    forall i | 0 <= i < m + 1 ensures ExpandedRow(c, r', i) && FixedRow(tags, seeds, sigma, r'.fixed[i], i) {
      if i < m {
        assert ExpandedRow(c, r, i) && FixedRow(tags, seeds, sigma, r.fixed[i], i);
      }
    }
  }

  /** The first `|r.tags|` rows of `sc` hold the tags, and `sg` the children. */
  ghost predicate Stored(r: Rows, sc: array<Row>, sg: array<Row>)
    requires |r.tags| == |r.left| == |r.right| <= sc.Length && 2 * |r.tags| <= sg.Length
    reads sc, sg
  {
    forall i :: 0 <= i < |r.tags| ==> sc[i] == r.tags[i] && sg[2 * i] == r.left[i] && sg[2 * i + 1] == r.right[i]
  }

  /** Rows `i` and up of `sc` still hold the seeds. */
  ghost predicate Untouched(seeds: seq<Row>, sc: array<Row>, i: nat)
    requires |seeds| <= sc.Length
    reads sc
  {
    forall q :: i <= q < |seeds| ==> sc[q] == seeds[q]
  }

  method StoreRow(sc: array<Row>, sg: array<Row>, i: nat, tag: Row, left: Row, right: Row, ghost r: Rows, ghost r': Rows,
                  ghost seeds: seq<Row>)
    requires sc != sg && i == |r.tags| == |r.left| == |r.right| < |seeds| <= sc.Length && 2 * i + 1 < sg.Length
    requires r'.tags == r.tags + [tag] && r'.left == r.left + [left] && r'.right == r.right + [right]
    requires Stored(r, sc, sg) && Untouched(seeds, sc, i)
    modifies sc, sg
    ensures Stored(r', sc, sg) && Untouched(seeds, sc, i + 1)
  {
    sc[i] := tag;
    sg[2 * i] := left;
    sg[2 * i + 1] := right;
  }

  /** Corrects and expands a whole level of all trees. The parents' tags are read from `tp`,
      the seeds in `sc` are replaced by their tags, and the children are written to `sg`. */
  method ExpandLevel(c: Cipher, tp: array<Row>, sc: array<Row>, sg: array<Row>, sigma: seq<Row>, n: nat, parents: nat)
    returns (z0: Row, z1: Row, ghost r: Rows)
    requires tp != sc && tp != sg && sc != sg
    requires parents <= tp.Length && 2 * parents <= sc.Length && 4 * parents <= sg.Length
    requires |sigma| == 2 && Wide(tp[..parents], n) && Wide(sc[..2 * parents], n) && Wide(sigma, n)
    modifies sc, sg
    ensures RowsOf(c, tp[..parents], old(sc[..2 * parents]), sigma, r, 2 * parents, n)
    ensures Stored(r, sc, sg)
    ensures z0 == SumRows(r.left, n) && z1 == SumRows(r.right, n)
  {
    ghost var tags, seeds := tp[..parents], sc[..2 * parents];
    z0, z1, r := ZeroRow(n), ZeroRow(n), Rows([], [], [], []);
    var i := 0;
    while i < 2 * parents
      invariant 0 <= i <= 2 * parents
      invariant RowsOf(c, tags, seeds, sigma, r, i, n) && Stored(r, sc, sg)
      invariant Untouched(seeds, sc, i)
      invariant z0 == SumRows(r.left, n) && z1 == SumRows(r.right, n)
    {
      assert tp[i / 2] == tags[i / 2] && sc[i] == seeds[i];
      ghost var s := FixRow(tags[i / 2], seeds[i], sigma[i % 2]);
      var left, right, tag;
      left, right, tag, z0, z1 := ExpandRow(c, tp[i / 2], sc[i], sigma[i % 2], z0, z1);
      SumRowsPush(r.left, n, left);
      SumRowsPush(r.right, n, right);
      ghost var r' := Rows(r.fixed + [s], r.tags + [tag], r.left + [left], r.right + [right]);
      RowsPush(c, tags, seeds, sigma, r, i, n, s, r');
      StoreRow(sc, sg, i, tag, left, right, r, r', seeds);
      r, i := r', i + 1;
    }
  }

  /** The buffers hold a level of `parents` nodes of trees `0 .. n`. */
  ghost predicate Holds(tags: seq<Row>, seeds: seq<Row>, n: nat) {
    && |seeds| == 2 * |tags| && Wide(tags, n) && Wide(seeds, n)
    && forall p, k :: 0 <= p < |tags| && 0 <= k < n ==> tags[p][k] == Saturate(Lsb(tags[p][k]))
  }

  /** Tree `k` of the level in the buffers. */
  ghost function LevelOf(tags: seq<Row>, seeds: seq<Row>, n: nat, k: nat): (l: Level)
    requires Holds(tags, seeds, n) && k < n
    ensures Shaped(2, l) && |l.tags| == |tags|
  {
    Level(seq(|tags|, p requires 0 <= p < |tags| => [seeds[2 * p][k], seeds[2 * p + 1][k]]),
          seq(|tags|, p requires 0 <= p < |tags| => Lsb(tags[p][k])))
  }

  lemma FixedIsCorrected(tags: seq<Row>, seeds: seq<Row>, sigma: seq<Row>, n: nat, k: nat, corr: Correction, i: nat, row: Row)
    requires Holds(tags, seeds, n) && k < n && |sigma| == 2 && Wide(sigma, n) && i < |seeds|
    requires sigma[0][k] == Sigma(corr)[0] && sigma[1][k] == Sigma(corr)[1]
    requires FixedRow(tags, seeds, sigma, row, i)
    ensures |row| == n && row[k] == Corrected(2, LevelOf(tags, seeds, n, k), Sigma(corr))[i]
  {
    MaskIsAnd(Lsb(tags[i / 2][k]), Sigma(corr)[i % 2]);
    assert i == 2 * (i / 2) + i % 2;
  }

  lemma ExpandedHolds(c: Cipher, tags: seq<Row>, seeds: seq<Row>, sigma: seq<Row>, r: Rows, n: nat, seeds': seq<Row>)
    requires RowsOf(c, tags, seeds, sigma, r, |seeds|, n)
    requires |seeds'| == 2 * |r.tags| && forall i :: 0 <= i < |r.tags| ==> seeds'[2 * i] == r.left[i] && seeds'[2 * i + 1] == r.right[i]
    ensures Holds(r.tags, seeds', n)
  {
    forall i | 0 <= i < |seeds'| ensures |seeds'[i]| == n {
      if i % 2 == 0 {
        assert seeds'[2 * (i / 2)] == r.left[i / 2];
      } else {
        assert seeds'[2 * (i / 2) + 1] == r.right[i / 2];
      }
    }
    forall p, k | 0 <= p < |r.tags| && 0 <= k < n ensures r.tags[p][k] == Saturate(Lsb(r.tags[p][k])) {
      assert ExpandedRow(c, r, p);
      BitLaws();
    }
  }

  /** Expanding the rows of a level gives the rows of the next level of every tree. */
  lemma RowsAreNext(c: Cipher, tags: seq<Row>, seeds: seq<Row>, sigma: seq<Row>, r: Rows, n: nat, seeds': seq<Row>,
                    k: nat, corr: Correction)
    requires Holds(tags, seeds, n) && Wide(sigma, n) && RowsOf(c, tags, seeds, sigma, r, |seeds|, n) && k < n
    requires |seeds'| == 2 * |r.tags| && forall i :: 0 <= i < |r.tags| ==> seeds'[2 * i] == r.left[i] && seeds'[2 * i + 1] == r.right[i]
    requires sigma[0][k] == Sigma(corr)[0] && sigma[1][k] == Sigma(corr)[1]
    requires Holds(r.tags, seeds', n)
    ensures LevelOf(r.tags, seeds', n, k) == Next(c, LevelOf(tags, seeds, n, k), corr)
  {
    var l, l' := LevelOf(tags, seeds, n, k), LevelOf(r.tags, seeds', n, k);
    var cs := Corrected(2, l, Sigma(corr));
    var e := Expanded(2, ChildPrg(c), cs);
    forall i | 0 <= i < |cs| ensures l'.tags[i] == e.tags[i] && l'.kids[i] == e.kids[i] {
      RowIsNext(c, tags, seeds, sigma, r, n, k, corr, i);
    }
    assert l'.tags == e.tags;
    assert l'.kids == e.kids;
  }

  lemma RowIsNext(c: Cipher, tags: seq<Row>, seeds: seq<Row>, sigma: seq<Row>, r: Rows, n: nat, k: nat, corr: Correction, i: nat)
    requires Holds(tags, seeds, n) && Wide(sigma, n) && RowsOf(c, tags, seeds, sigma, r, |seeds|, n) && k < n && i < |seeds|
    requires sigma[0][k] == Sigma(corr)[0] && sigma[1][k] == Sigma(corr)[1]
    ensures var s := Corrected(2, LevelOf(tags, seeds, n, k), Sigma(corr))[i];
            r.tags[i][k] == Saturate(Lsb(s)) && Lsb(r.tags[i][k]) == Lsb(s) && [r.left[i][k], r.right[i][k]] == Kids(2, ChildPrg(c), s)
  {
    assert FixedRow(tags, seeds, sigma, r.fixed[i], i) && ExpandedRow(c, r, i);
    FixedIsCorrected(tags, seeds, sigma, n, k, corr, i, r.fixed[i]);
    BitLaws();
  }

  function ColumnOf(rows: seq<Row>, n: nat, k: nat): seq<Block>
    requires Wide(rows, n) && k < n
  {
    seq(|rows|, i requires 0 <= i < |rows| => rows[i][k])
  }

  lemma {:induction false} SumRowsAt(rows: seq<Row>, n: nat, k: nat)
    requires Wide(rows, n) && k < n
    ensures SumRows(rows, n)[k] == XorAll(ColumnOf(rows, n, k))
  {
    if rows != [] {
      var m := |rows| - 1;
      SumRowsAt(rows[..m], n, k);
      assert ColumnOf(rows, n, k)[..m] == ColumnOf(rows[..m], n, k);
    }
  }

  /** The rows summed during expansion are the level sums of every tree. */
  lemma SumsAreDigitSums(r: Rows, n: nat, seeds': seq<Row>, k: nat)
    requires |r.tags| == |r.left| == |r.right| && Wide(r.left, n) && Wide(r.right, n) && k < n
    requires |seeds'| == 2 * |r.tags| && forall i :: 0 <= i < |r.tags| ==> seeds'[2 * i] == r.left[i] && seeds'[2 * i + 1] == r.right[i]
    requires Holds(r.tags, seeds', n)
    ensures SumRows(r.left, n)[k] == DigitSum(LevelOf(r.tags, seeds', n, k), 0)
    ensures SumRows(r.right, n)[k] == DigitSum(LevelOf(r.tags, seeds', n, k), 1)
  {
    SumRowsAt(r.left, n, k);
    SumRowsAt(r.right, n, k);
    var l := LevelOf(r.tags, seeds', n, k);
    assert ColumnOf(r.left, n, k) == Column(l, 0);
    assert ColumnOf(r.right, n, k) == Column(l, 1);
  }

  /** All trees at once: `RowsAreNext` and `SumsAreDigitSums`. */
  lemma LevelAdvances(c: Cipher, tags: seq<Row>, seeds: seq<Row>, sigma: seq<Row>, r: Rows, n: nat, seeds': seq<Row>,
                      corr: seq<Correction>)
    requires Holds(tags, seeds, n) && Wide(sigma, n) && RowsOf(c, tags, seeds, sigma, r, |seeds|, n) && |corr| == n
    requires |seeds'| == 2 * |r.tags| && forall i :: 0 <= i < |r.tags| ==> seeds'[2 * i] == r.left[i] && seeds'[2 * i + 1] == r.right[i]
    requires forall k :: 0 <= k < n ==> sigma[0][k] == Sigma(corr[k])[0] && sigma[1][k] == Sigma(corr[k])[1]
    ensures Holds(r.tags, seeds', n)
    ensures forall k :: 0 <= k < n ==> LevelOf(r.tags, seeds', n, k) == Next(c, LevelOf(tags, seeds, n, k), corr[k])
    ensures forall k :: 0 <= k < n ==> SumsOf(LevelOf(r.tags, seeds', n, k), SumRows(r.left, n)[k], SumRows(r.right, n)[k])
  {
    ExpandedHolds(c, tags, seeds, sigma, r, n, seeds');
    forall k | 0 <= k < n
      ensures LevelOf(r.tags, seeds', n, k) == Next(c, LevelOf(tags, seeds, n, k), corr[k])
      ensures SumsOf(LevelOf(r.tags, seeds', n, k), SumRows(r.left, n)[k], SumRows(r.right, n)[k])
    {
      RowsAreNext(c, tags, seeds, sigma, r, n, seeds', k, corr[k]);
      SumsAreDigitSums(r, n, seeds', k);
    }
  }

  ghost predicate SumsOf(l: Level, z0: Block, z1: Block) {
    Shaped(2, l) && z0 == DigitSum(l, 0) && z1 == DigitSum(l, 1)
  }

  /** The correction words of all trees as two rows, one per child position. */
  function SigmaRows(corr: seq<Correction>): (sigma: seq<Row>)
    ensures |sigma| == 2 && Wide(sigma, |corr|)
    ensures forall k :: 0 <= k < |corr| ==> sigma[0][k] == Sigma(corr[k])[0] && sigma[1][k] == Sigma(corr[k])[1]
  {
    [seq(|corr|, k requires 0 <= k < |corr| => corr[k].word),
     seq(|corr|, k requires 0 <= k < |corr| => WithLsb(corr[k].word, corr[k].bit))]
  }

  /** Expands the level held in `tp` and `sc` into `sc` and `sg`: every tree moves to its next level. */
  method ExpandTrees(c: Cipher, tp: array<Row>, sc: array<Row>, sg: array<Row>, corr: seq<Correction>, parents: nat)
    returns (z0: Row, z1: Row)
    requires tp != sc && tp != sg && sc != sg
    requires parents <= tp.Length && 2 * parents <= sc.Length && 4 * parents <= sg.Length
    requires Holds(tp[..parents], sc[..2 * parents], |corr|)
    modifies sc, sg
    ensures Holds(sc[..2 * parents], sg[..4 * parents], |corr|) && |z0| == |z1| == |corr|
    ensures forall k :: 0 <= k < |corr| ==>
              && LevelOf(sc[..2 * parents], sg[..4 * parents], |corr|, k)
                 == Next(c, old(LevelOf(tp[..parents], sc[..2 * parents], |corr|, k)), corr[k])
              && SumsOf(LevelOf(sc[..2 * parents], sg[..4 * parents], |corr|, k), z0[k], z1[k])
  {
    ghost var tags, seeds := tp[..parents], sc[..2 * parents];
    var sigma := SigmaRows(corr);
    ghost var r;
    z0, z1, r := ExpandLevel(c, tp, sc, sg, sigma, |corr|, parents);
    ghost var seeds' := sg[..4 * parents];
    assert sc[..2 * parents] == r.tags;
    LevelAdvances(c, tags, seeds, sigma, r, |corr|, seeds', corr);
  }

  function MaskRow(c: Cipher, s: Row): (r: Row)
    ensures |r| == |s|
  {
    seq(|s|, k requires 0 <= k < |s| => LeafMask(c, s[k]))
  }

  /** Corrects one row of leaf seeds: the leaf masks, the tags, and the updated sum of masks. */
  method LeafRow(c: Cipher, tag: Row, seed: Row, sigma: Row, diff: Row) returns (mask: Row, tag': Row, diff': Row)
    requires |tag| == |seed| == |sigma| == |diff|
    ensures var s := FixRow(tag, seed, sigma);
            mask == MaskRow(c, s) && tag' == TagRow(s) && diff' == XorRow(diff, mask)
  {
    mask, tag', diff' := [], [], [];
    ghost var fixed := FixRow(tag, seed, sigma);
    var k := 0;
    while k < |seed|
      invariant 0 <= k <= |seed| && |mask| == |tag'| == |diff'| == k
      invariant mask == MaskRow(c, fixed)[..k] && tag' == TagRow(fixed)[..k]
      invariant forall q :: 0 <= q < k ==> diff'[q] == Xor(diff[q], mask[q])
    {
      var temp := Xor(seed[k], And(tag[k], sigma[k]));
      tag' := tag' + [Saturate(Lsb(temp))];
      mask := mask + [c.roundEnc(temp, temp)];
      diff' := diff' + [Xor(diff[k], mask[k])];
      k := k + 1;
    }
  }

  /** The corrected leaf rows and what is derived from them. */
  datatype Leaves = Leaves(fixed: seq<Row>, tags: seq<Row>, masks: seq<Row>)

  ghost predicate LeafAt(c: Cipher, l: Leaves, i: nat)
    requires i < |l.fixed| == |l.tags| == |l.masks|
  {
    l.tags[i] == TagRow(l.fixed[i]) && l.masks[i] == MaskRow(c, l.fixed[i])
  }

  ghost predicate LeavesOf(c: Cipher, tags: seq<Row>, seeds: seq<Row>, sigma: seq<Row>, l: Leaves, m: nat, n: nat) {
    && |sigma| == 2 && m <= |seeds| && m <= 2 * |tags|
    && |l.fixed| == |l.tags| == |l.masks| == m && Wide(l.tags, n) && Wide(l.masks, n) && Wide(l.fixed, n)
    && (forall i :: 0 <= i < m ==> FixedRow(tags, seeds, sigma, l.fixed[i], i))
    && (forall i :: 0 <= i < m ==> LeafAt(c, l, i))
  }

  lemma LeavesPush(c: Cipher, tags: seq<Row>, seeds: seq<Row>, sigma: seq<Row>, l: Leaves, m: nat, n: nat, s: Row, l': Leaves)
    requires LeavesOf(c, tags, seeds, sigma, l, m, n) && m < |seeds| && m < 2 * |tags|
    requires FixedRow(tags, seeds, sigma, s, m) && |s| == n
    requires l' == Leaves(l.fixed + [s], l.tags + [TagRow(s)], l.masks + [MaskRow(c, s)])
    ensures LeavesOf(c, tags, seeds, sigma, l', m + 1, n)
  {
    forall i | 0 <= i < m + 1 ensures LeafAt(c, l', i) && FixedRow(tags, seeds, sigma, l'.fixed[i], i) {
      if i < m {
        assert LeafAt(c, l, i) && FixedRow(tags, seeds, sigma, l.fixed[i], i);
      }
    }
  }

  ghost predicate MasksStored(masks: seq<Row>, sc: array<Row>)
    requires |masks| <= sc.Length
    reads sc
  {
    forall i :: 0 <= i < |masks| ==> sc[i] == masks[i]
  }

  /** Fixes the last level: the first `size` seeds in `sc` are replaced by leaf masks. */
  method FixLeaves(c: Cipher, tp: array<Row>, sc: array<Row>, sigma: seq<Row>, n: nat, size: nat, ghost width: nat)
    returns (tags: seq<Row>, diff: Row, ghost l: Leaves)
    requires tp != sc && size <= 2 * width && width <= tp.Length && 2 * width <= sc.Length
    requires |sigma| == 2 && Wide(tp[..width], n) && Wide(sc[..2 * width], n) && Wide(sigma, n)
    modifies sc
    ensures LeavesOf(c, tp[..width], old(sc[..2 * width]), sigma, l, size, n)
    ensures tags == l.tags && MasksStored(l.masks, sc) && diff == SumRows(l.masks, n)
  {
    ghost var parents, seeds := tp[..width], sc[..2 * width];
    tags, diff, l := [], ZeroRow(n), Leaves([], [], []);
    var i := 0;
    while i < size
      invariant 0 <= i <= size
      invariant LeavesOf(c, parents, seeds, sigma, l, i, n) && tags == l.tags
      invariant MasksStored(l.masks, sc) && Untouched(seeds, sc, i)
      invariant diff == SumRows(l.masks, n)
    {
      assert tp[i / 2] == parents[i / 2] && sc[i] == seeds[i];
      ghost var s := FixRow(parents[i / 2], seeds[i], sigma[i % 2]);
      var mask, tag;
      mask, tag, diff := LeafRow(c, tp[i / 2], sc[i], sigma[i % 2], diff);
      SumRowsPush(l.masks, n, mask);
      ghost var l' := Leaves(l.fixed + [s], l.tags + [tag], l.masks + [mask]);
      LeavesPush(c, parents, seeds, sigma, l, i, n, s, l');
      sc[i] := mask;
      tags := tags + [tag];
      l, i := l', i + 1;
    }
  }

  /** What a party holds for tree `k` at its first `size` leaves, when its leaf seeds are `seeds`. */
  ghost predicate LeavesFor(c: Cipher, seeds: seq<Block>, tags: seq<Row>, masks: seq<Row>, diff: Row, size: nat, k: nat) {
    && size <= |seeds| && size <= |tags| && size <= |masks| && k < |diff|
    && (forall i :: 0 <= i < size ==> k < |tags[i]| && k < |masks[i]|)
    && (forall i :: 0 <= i < size ==> tags[i][k] == Saturate(Lsb(seeds[i])) && masks[i][k] == LeafMask(c, seeds[i]))
    && diff[k] == XorAll(Masks(c, seeds[..size]))
  }

  lemma LeafIsFor(c: Cipher, tags: seq<Row>, seeds: seq<Row>, sigma: seq<Row>, l: Leaves, size: nat, n: nat, k: nat, corr: Correction, i: nat)
    requires Holds(tags, seeds, n) && Wide(sigma, n) && LeavesOf(c, tags, seeds, sigma, l, size, n) && k < n && i < size
    requires sigma[0][k] == Sigma(corr)[0] && sigma[1][k] == Sigma(corr)[1]
    ensures var s := Corrected(2, LevelOf(tags, seeds, n, k), Sigma(corr))[i];
            l.tags[i][k] == Saturate(Lsb(s)) && l.masks[i][k] == LeafMask(c, s)
  {
    assert FixedRow(tags, seeds, sigma, l.fixed[i], i) && LeafAt(c, l, i);
    FixedIsCorrected(tags, seeds, sigma, n, k, corr, i, l.fixed[i]);
  }

  lemma LeavesAreFor(c: Cipher, tags: seq<Row>, seeds: seq<Row>, sigma: seq<Row>, l: Leaves, size: nat, n: nat, k: nat, corr: Correction)
    requires Holds(tags, seeds, n) && Wide(sigma, n) && LeavesOf(c, tags, seeds, sigma, l, size, n) && k < n
    requires sigma[0][k] == Sigma(corr)[0] && sigma[1][k] == Sigma(corr)[1]
    ensures LeavesFor(c, Corrected(2, LevelOf(tags, seeds, n, k), Sigma(corr)), l.tags, l.masks, SumRows(l.masks, n), size, k)
  {
    var cs := Corrected(2, LevelOf(tags, seeds, n, k), Sigma(corr));
    forall i | 0 <= i < size ensures l.tags[i][k] == Saturate(Lsb(cs[i])) && l.masks[i][k] == LeafMask(c, cs[i]) {
      LeafIsFor(c, tags, seeds, sigma, l, size, n, k, corr, i);
    }
    SumRowsAt(l.masks, n, k);
    assert ColumnOf(l.masks, n, k) == Masks(c, cs[..size]);
  }

  /** Fixes the last level of every tree. */
  method FixTrees(c: Cipher, tp: array<Row>, sc: array<Row>, corr: seq<Correction>, size: nat, ghost width: nat)
    returns (tags: seq<Row>, diff: Row)
    requires tp != sc && size <= 2 * width && width <= tp.Length && 2 * width <= sc.Length
    requires Holds(tp[..width], sc[..2 * width], |corr|)
    modifies sc
    ensures |tags| == size && |diff| == |corr| && Wide(tags, |corr|) && Wide(sc[..size], |corr|)
    ensures forall k :: 0 <= k < |corr| ==>
              LeavesFor(c, Corrected(2, old(LevelOf(tp[..width], sc[..2 * width], |corr|, k)), Sigma(corr[k])), tags, sc[..size], diff, size, k)
  {
    ghost var parents, seeds, n := tp[..width], sc[..2 * width], |corr|;
    var sigma := SigmaRows(corr);
    ghost var l;
    tags, diff, l := FixLeaves(c, tp, sc, sigma, |corr|, size, width);
    assert sc[..size] == l.masks;
    forall k | 0 <= k < n
      ensures LeavesFor(c, Corrected(2, LevelOf(parents, seeds, n, k), Sigma(corr[k])), tags, sc[..size], diff, size, k)
    {
      LeavesAreFor(c, parents, seeds, sigma, l, size, n, k, corr[k]);
    }
  }

  /** One leaf of every tree, with the leaf correction applied. */
  function OutputRow(mask: Row, tag: Row, gamma: Row): (r: Row)
    requires |mask| == |tag| == |gamma|
    ensures |r| == |mask|
  {
    seq(|mask|, k requires 0 <= k < |mask| => Xor(mask[k], And(tag[k], gamma[k])))
  }
}
