/** The ternary DPF as a whole: two parties' outputs share a point function. */
module TernaryResults {
  import opened Blocks
  import opened Words
  import opened DpfTree
  import opened TernaryLevels
  import opened TernaryRound
  import opened TernaryDpf

  datatype Option<T> = None | Some(value: T)

  /** A party's outputs and tags, leaf by leaf. */
  datatype Leaves = Leaves(out: seq<Block>, tags: seq<bool>)

  /** Both parties' leaves share `v` at `p` and zero elsewhere, and their tags share the indicator of `p`. */
  ghost predicate SharePoint(l0: Leaves, l1: Leaves, domain: nat, p: nat, v: Block) {
    && |l0.out| == |l1.out| == |l0.tags| == |l1.tags| == domain
    && forall i :: 0 <= i < domain ==> (l0.tags[i] != l1.tags[i]) == (i == p) && Xor(l0.out[i], l1.out[i]) == Mask(i == p, v)
  }

  /** One party's leaves before the final correction. */
  method Fix(conv: Block -> Block, p: Party, sigma: seq<Block>, domain: nat) returns (leaves: Leaves, sum: Block)
    requires p.Valid() && p.iter == p.depth && |sigma| == 3 && domain <= Pow3(p.depth)
    ensures FixedSoFar(conv, Corrected(3, p.level, sigma), leaves.tags, leaves.out, sum, domain)
  {
    var tp, sc := p.s[(p.depth - 1) % 3], p.s[p.depth % 3];
    var m := Pow3(p.depth - 1);
    assert Pow3(p.depth) == 3 * m;
    assert Pow3(p.depth) <= sc.Length && m <= tp.Length;
    var tags, vals;
    tags, vals, sum := FixLeaves(conv, tp, sc, sigma, m, domain);
    leaves := Leaves(vals, tags);
  }

  /** The output loop: the correction is added under the tag. */
  method Apply(leaves: Leaves, gamma: Block) returns (out: seq<Block>)
    requires |leaves.out| == |leaves.tags|
    ensures |out| == |leaves.out| && forall i :: 0 <= i < |out| ==> out[i] == Output(leaves.tags[i], leaves.out[i], gamma)
  {
    out := [];
    while |out| < |leaves.out|
      invariant |out| <= |leaves.out|
      invariant forall i :: 0 <= i < |out| ==> out[i] == Output(leaves.tags[i], leaves.out[i], gamma)
    {
      var i := |out|;
      out := out + [Xor(Mask(leaves.tags[i], gamma), leaves.out[i])];
    }
  }

  /** The closing exchange: with values, the leaves are corrected to share them; without, they stay random at the point. */
  method Finish(conv: Block -> Block, l0: Leaves, sum0: Block, l1: Leaves, sum1: Block, values: Option<(Block, Block)>,
                ghost c0: seq<Block>, ghost c1: seq<Block>, domain: nat, ghost p: nat)
    returns (r0: Leaves, r1: Leaves)
    requires OneNode(c0, c1, p)
    requires FixedSoFar(conv, c0, l0.tags, l0.out, sum0, domain) && FixedSoFar(conv, c1, l1.tags, l1.out, sum1, domain)
    ensures values.Some? ==> SharePoint(r0, r1, domain, p, Xor(values.value.0, values.value.1))
    ensures values.None? ==> r0 == l0 && r1 == l1 && exists v :: SharePoint(r0, r1, domain, p, v)
  {
    if values.Some? {
      var v0, v1 := values.value.0, values.value.1;
      var diff0, diff1 := Xor(v0, sum0), Xor(v1, sum1);
      var gamma0, gamma1 := Xor(Xor(diff1, sum0), v0), Xor(Xor(diff0, sum1), v1);
      GammaSymmetric(sum0, v0, sum1, v1);
      var out0 := Apply(l0, gamma0);
      var out1 := Apply(l1, gamma1);
      r0, r1 := Leaves(out0, l0.tags), Leaves(out1, l1.tags);
      forall i | 0 <= i < domain
        ensures (r0.tags[i] != r1.tags[i]) == (i == p) && Xor(r0.out[i], r1.out[i]) == Mask(i == p, Xor(v0, v1))
      {
        LeafShares(conv, c0, c1, p, domain, l0.tags, l0.out, l1.tags, l1.out, gamma0, Xor(v0, v1), i);
      }
    } else {
      r0, r1 := l0, l1;
      forall i | 0 <= i < domain && i != p ensures Xor(r0.out[i], r1.out[i]) == ZERO {
        XorSelf(r0.out[i]);
      }
      assert SharePoint(r0, r1, domain, p, if p < domain then Xor(r0.out[p], r1.out[p]) else ZERO);
    }
  }

  lemma RootsDiffer(seeds0: seq<Block>, seeds1: seq<Block>, t: Tree)
    requires |seeds0| == |seeds1| == 3 && 0 < t.depth <= 32
    ensures OnCourse(Level([seeds0], [false]), Level([seeds1], [true]), t, 1)
  {
  }

  method Start(depth: nat, seeds0: seq<Block>, seeds1: seq<Block>, ghost t: Tree) returns (p0: Party, p1: Party)
    requires 0 < depth <= 32 && t.depth == depth && |seeds0| == |seeds1| == 3
    ensures fresh(p0) && fresh(p1) && fresh(p0.s) && fresh(p1.s) && Apart(p0, p1) && p0.depth == depth && RoundsInv(p0, p1, t, 1)
  {
    p0 := new Party(false, depth, seeds0);
    p1 := new Party(true, depth, seeds1);
    RootsDiffer(seeds0, seeds1, t);
  }

  /** The least depth that covers a domain. */
  predicate Covers(depth: nat, domain: nat) {
    domain <= Pow3(depth) && (depth > 0 ==> Pow3(depth - 1) < domain)
  }

  lemma DepthFits(depth: nat, domain: nat)
    requires Covers(depth, domain) && domain <= Pow3(32)
    ensures depth <= 32 && (depth == 0 <==> domain <= 1)
  {
    if depth > 32 {
      Pow3Monotone(32, depth - 1);
    }
    if depth > 0 {
      Pow3Monotone(0, depth - 1);
    }
  }

  lemma {:induction false} NumberBelow(pt0: Point, pt1: Point, n: nat)
    requires n <= 32
    ensures SharedNumber(pt0, pt1, n) < Pow3(n)
  {
    if n > 0 {
      NumberBelow(pt0, pt1, n - 1);
      MulMonotone(Pow3(n - 1), (pt0[n - 1] + pt1[n - 1]) % 3, 2);
    }
  }

  lemma {:induction false} Pow3Add(a: nat, b: nat)
    ensures Pow3(a + b) == Pow3(a) * Pow3(b)
  {
    if a > 0 {
      Pow3Add(a - 1, b);
    }
  }

  /** Adding a multiple of `3 * q` leaves the ternary digit of weight `q` alone. */
  lemma DigitKept(v: nat, i: nat, m: nat, q: nat)
    requires q > 0 && i == v + q * (3 * m)
    ensures i / q % 3 == v / q % 3
  {
    var d, r := v / q, v % q;
    Multiples(q, d, 3 * m);
    assert i == q * (d + 3 * m) + r;
    DivUnique(q, i, d + 3 * m, r);
  }

  lemma Multiples(q: nat, d: nat, m: nat)
    ensures q * (d + m) == q * d + q * m
  {
  }

  lemma Regroup(a: nat, k: nat, q: nat, p: nat)
    requires p == k * q
    ensures a * (3 * p) == q * (3 * (a * k))
  {
  }

  /** A new top digit `a` is read back, and the digits below are kept. */
  lemma TopDigit(low: nat, a: nat, p: nat)
    requires low < p && a < 3
    ensures (low + a * p) / p % 3 == a
  {
    DivUnique(p, low + a * p, a, low);
  }

  lemma LowerDigit(low: nat, a: nat, n: nat, i: nat)
    requires i < n
    ensures (low + a * Pow3(n)) / Pow3(i) % 3 == low / Pow3(i) % 3
  {
    var k, q, p := Pow3(n - 1 - i), Pow3(i), Pow3(n - 1);
    Pow3Add(n - 1 - i, i);
    Regroup(a, k, q, p);
    DigitKept(low, low + a * (3 * p), a * k, q);
  }

  /** Its ternary digits are the digit sums modulo 3. */
  lemma {:induction false} DigitsOfNumber(pt0: Point, pt1: Point, n: nat, i: nat)
    requires i < n <= 32
    ensures SharedNumber(pt0, pt1, n) / Pow3(i) % 3 == (pt0[i] + pt1[i]) % 3
  {
    if i == n - 1 {
      NumberBelow(pt0, pt1, n - 1);
      TopDigit(SharedNumber(pt0, pt1, n - 1), (pt0[n - 1] + pt1[n - 1]) % 3, Pow3(n - 1));
    } else {
      DigitsOfNumber(pt0, pt1, n - 1, i);
      LowerDigit(SharedNumber(pt0, pt1, n - 1), (pt0[n - 1] + pt1[n - 1]) % 3, n - 1, i);
    }
  }

  lemma NumberDigits(pt0: Point, pt1: Point, depth: nat)
    requires depth <= 32
    ensures SharedNumber(pt0, pt1, depth) < Pow3(depth)
    ensures forall i :: 0 <= i < depth ==> SharedNumber(pt0, pt1, depth) / Pow3(i) % 3 == (pt0[i] + pt1[i]) % 3
  {
    NumberBelow(pt0, pt1, depth);
    forall i | 0 <= i < depth ensures SharedNumber(pt0, pt1, depth) / Pow3(i) % 3 == (pt0[i] + pt1[i]) % 3 {
      DigitsOfNumber(pt0, pt1, depth, i);
    }
  }

  /**
   Two runs of `expand` for one tree, for a domain of more than one leaf. Any point shares, seeds and
   draws: the run is refused exactly when a point share is malformed, it uses exactly the base OTs it was
   given, and its outputs share the point function, which is zero on the whole domain for a point beyond it.
   */
  method Expand(prg: Prg, e: Pads, conv: Block -> Block, domain: nat, t: Tree, seeds0: seq<Block>, seeds1: seq<Block>,
                rand0: nat -> Block, rand1: nat -> Block, o0: BaseOts, o1: BaseOts, values: Option<(Block, Block)>)
    returns (ok: bool, r0: Leaves, r1: Leaves, otIdx: nat)
    requires t.k < t.n && 0 < t.depth <= 32 && 1 < domain <= Pow3(t.depth) && |seeds0| == |seeds1| == 3
    requires OtPair(o0, o1, OtStart(t.n, t.depth + 1))
    ensures ok == (Fits(t.pt0, t.depth) && Fits(t.pt1, t.depth))
    ensures ok ==> otIdx == OtStart(t.n, t.depth + 1)
    ensures SharedNumber(t.pt0, t.pt1, t.depth) < Pow3(t.depth)
    ensures forall i :: 0 <= i < t.depth ==> SharedNumber(t.pt0, t.pt1, t.depth) / Pow3(i) % 3 == (t.pt0[i] + t.pt1[i]) % 3
    ensures ok && values.Some? ==> SharePoint(r0, r1, domain, SharedNumber(t.pt0, t.pt1, t.depth), Xor(values.value.0, values.value.1))
    ensures ok && values.None? ==> exists v :: SharePoint(r0, r1, domain, SharedNumber(t.pt0, t.pt1, t.depth), v)
  {
    NumberDigits(t.pt0, t.pt1, t.depth);
    r0, r1, otIdx := Leaves([], []), Leaves([], []), 0;
    var ok0 := CheckPoint(t.pt0, t.depth);
    var ok1 := CheckPoint(t.pt1, t.depth);
    ok := ok0 && ok1;
    if !ok {
      return;
    }
    var p0, p1 := Start(t.depth, seeds0, seeds1, t);
    var sigma;
    sigma, otIdx := Rounds(prg, e, p0, p1, o0, o1, t, rand0, rand1);
    r0, r1 := Outputs(conv, p0, p1, sigma, domain, t, values);
  }

  /**
   `init` and `expand` for a domain of any size up to 3^32: the depth is the least that covers the domain, and a
   domain of one leaf is output directly.
   */
  method ExpandDomain(prg: Prg, e: Pads, conv: Block -> Block, domain: nat, n: nat, k: nat, pt0: Point, pt1: Point,
                      seeds0: seq<Block>, seeds1: seq<Block>, rand0: nat -> Block, rand1: nat -> Block, o0: BaseOts, o1: BaseOts,
                      values: Option<(Block, Block)>)
    returns (ok: bool, r0: Leaves, r1: Leaves, depth: nat, otIdx: nat)
    requires k < n && |seeds0| == |seeds1| == 3 && 0 < domain <= Pow3(32)
    requires forall d: nat :: Covers(d, domain) ==> OtPair(o0, o1, OtStart(n, d + 1))
    ensures Covers(depth, domain) && depth <= 32 && SharedNumber(pt0, pt1, depth) < Pow3(depth)
    ensures forall i :: 0 <= i < depth ==> SharedNumber(pt0, pt1, depth) / Pow3(i) % 3 == (pt0[i] + pt1[i]) % 3
    ensures ok == (domain == 1 || (Fits(pt0, depth) && Fits(pt1, depth))) && (ok ==> otIdx == OtStart(n, depth + 1))
    ensures ok && values.Some? ==>
              SharePoint(r0, r1, domain, SharedNumber(pt0, pt1, depth), Xor(values.value.0, values.value.1))
    ensures ok && values.None? ==> exists v :: SharePoint(r0, r1, domain, SharedNumber(pt0, pt1, depth), v)
  {
    depth := Log3Ceil(domain);
    assert Covers(depth, domain);
    DepthFits(depth, domain);
    NumberDigits(pt0, pt1, depth);
    if domain == 1 {
      r0, r1 := ExpandTrivial(rand0(0), rand1(0), values);
      ok, otIdx := true, 0;
      assert SharedNumber(pt0, pt1, depth) == 0;
      assert values.None? ==> SharePoint(r0, r1, domain, SharedNumber(pt0, pt1, depth), Xor(rand0(0), rand1(0)));
    } else {
      ok, r0, r1, otIdx := Expand(prg, e, conv, domain, Tree(n, k, depth, pt0, pt1), seeds0, seeds1, rand0, rand1, o0, o1, values);
    }
  }

  method Outputs(conv: Block -> Block, p0: Party, p1: Party, sigma: seq<Block>, domain: nat, ghost t: Tree, values: Option<(Block, Block)>)
    returns (r0: Leaves, r1: Leaves)
    requires t.depth <= 32 && p0.depth == p1.depth == t.depth && RoundsInv(p0, p1, t, t.depth) && LeavesDiffer(p0.level, p1.level, t, sigma)
    requires domain <= Pow3(t.depth)
    ensures values.Some? ==> SharePoint(r0, r1, domain, SharedNumber(t.pt0, t.pt1, t.depth), Xor(values.value.0, values.value.1))
    ensures values.None? ==> exists v :: SharePoint(r0, r1, domain, SharedNumber(t.pt0, t.pt1, t.depth), v)
  {
    var l0, sum0 := Fix(conv, p0, sigma, domain);
    var l1, sum1 := Fix(conv, p1, sigma, domain);
    r0, r1 := Finish(conv, l0, sum0, l1, sum1, values, Corrected(3, p0.level, sigma), Corrected(3, p1.level, sigma), domain,
                     SharedNumber(t.pt0, t.pt1, t.depth));
  }

  /** The single-leaf domain: the value shares (or a random value each) are output directly, with the party index as tag. */
  method ExpandTrivial(rand0: Block, rand1: Block, values: Option<(Block, Block)>) returns (r0: Leaves, r1: Leaves)
    ensures values.Some? ==> SharePoint(r0, r1, 1, 0, Xor(values.value.0, values.value.1))
    ensures values.None? ==> SharePoint(r0, r1, 1, 0, Xor(rand0, rand1))
  {
    var pair := if values.Some? then values.value else (rand0, rand1);
    r0, r1 := Leaves([pair.0], [false]), Leaves([pair.1], [true]);
  }
}
