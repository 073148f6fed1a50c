/** `mpc_dotproduct` of mpc/mpcops.hpp: masks are expanded from seeds. */
module MpcDot {
  import opened Blocks
  import opened Ring64
  import opened Fifo
  import opened Rounds
  import opened Mpc

  /** `fill_vector_with_prg`. */
  function Fill(rnd: Rand, seed: Block, n: nat): (r: seq<U64>)
    ensures |r| == n
  {
    seq<U64>(n, i requires 0 <= i < n => rnd.stream(seed, i))
  }

  datatype Seeds = Seeds(x0: Block, x1: Block, y0: Block, y1: Block)

  function DotDraws(rnd: Rand, tag: nat): Seeds {
    Seeds(rnd.seed(tag, 0), rnd.seed(tag, 1), rnd.seed(tag, 2), rnd.seed(tag, 3))
  }

  function SeedMsgs(tag: nat, sx: Block, sy: Block, g: U64): seq<Msg> {
    [Msg(tag, Seed(sx)), Msg(tag, Seed(sy)), Msg(tag, Num(g))]
  }

  function Gamma(rnd: Rand, sx: Block, sy: Block, n: nat): U64 {
    Dot(Fill(rnd, sx, n), Fill(rnd, sy, n))
  }

  /** All parties hold vectors of one length; P2's entries do not matter. */
  function DotProc(role: nat, tag: nat, x: seq<U64>, y: seq<U64>, rnd: Rand, k: U64 -> Coroutine): Coroutine
    requires |x| == |y|
  {
    var d := DotDraws(rnd, tag);
    if role == 2 then
      Deal(SeedMsgs(tag, d.x0, d.y0, Gamma(rnd, d.x0, d.y1, |x|)), SeedMsgs(tag, d.x1, d.y1, Gamma(rnd, d.x1, d.y0, |x|)), lines => k(0))
    else
      Take(3, lines => DotSwap(role, tag, x, y, rnd, k, lines))
  }

  predicate GotSeeds(lines: Lines, tag: nat) {
    Got(lines, 2, tag, 3) && lines[2].got[0].body.Seed? && lines[2].got[1].body.Seed? && lines[2].got[2].body.Num?
  }

  function DotSwap(role: nat, tag: nat, x: seq<U64>, y: seq<U64>, rnd: Rand, k: U64 -> Coroutine, lines: Lines): Coroutine
    requires |x| == |y|
  {
    if role < 2 && GotSeeds(lines, tag) then
      DotWith(role, tag, x, y, Fill(rnd, lines[2].got[0].body.s, |x|), Fill(rnd, lines[2].got[1].body.s, |x|), lines[2].got[2].body.n, k)
    else
      Fault
  }

  function VecMsgs(tag: nat, u: seq<U64>, v: seq<U64>): seq<Msg> {
    [Msg(tag, Vec(u)), Msg(tag, Vec(v))]
  }

  function DotWith(role: nat, tag: nat, x: seq<U64>, y: seq<U64>, a: seq<U64>, b: seq<U64>, g: U64, k: U64 -> Coroutine): Coroutine
    requires role < 2 && |x| == |y| == |a| == |b|
  {
    Swap(role, VecMsgs(tag, AddAll(x, a), AddAll(y, b)), 2, lines => DotEnd(role, tag, x, y, b, g, k, lines))
  }

  /** The received vectors; the vector operators throw on a size mismatch. */
  predicate GotVectors(lines: Lines, q: nat, tag: nat, n: nat) {
    && Got(lines, q, tag, 2) && lines[q].got[0].body.Vec? && lines[q].got[1].body.Vec?
    && |lines[q].got[0].body.v| == n && |lines[q].got[1].body.v| == n
  }

  function DotEnd(role: nat, tag: nat, x: seq<U64>, y: seq<U64>, b: seq<U64>, g: U64, k: U64 -> Coroutine, lines: Lines): Coroutine
    requires |x| == |y| == |b|
  {
    if role < 2 && GotVectors(lines, 1 - role, tag, |x|) then
      k(VectorShare(x, y, b, lines[1 - role].got[0].body.v, lines[1 - role].got[1].body.v, g))
    else
      Fault
  }

  lemma DotExchange(tag: nat, x0: seq<U64>, y0: seq<U64>, a0: seq<U64>, b0: seq<U64>, g0: U64, x1: seq<U64>, y1: seq<U64>, a1: seq<U64>, b1: seq<U64>, g1: U64,
                    k0: U64 -> Coroutine, k1: U64 -> Coroutine, p2: Coroutine)
    requires |x0| == |y0| == |a0| == |b0| == |x1| == |y1| == |a1| == |b1|
    ensures Leads(Trio(DotWith(0, tag, x0, y0, a0, b0, g0, k0), DotWith(1, tag, x1, y1, a1, b1, g1, k1), p2),
                  Trio(k0(VectorShare(x0, y0, b0, AddAll(x1, a1), AddAll(y1, b1), g0)), k1(VectorShare(x1, y1, b1, AddAll(x0, a0), AddAll(y0, b0), g1)), p2))
  {
    var m0, m1 := VecMsgs(tag, AddAll(x0, a0), AddAll(y0, b0)), VecMsgs(tag, AddAll(x1, a1), AddAll(y1, b1));
    SwapRound(lines => DotEnd(0, tag, x0, y0, b0, g0, k0, lines), lines => DotEnd(1, tag, x1, y1, b1, g1, k1, lines), p2, m0, m1);
  }

  /** The workers' results. */
  function DotResult(role: nat, rnd: Rand, d: Seeds, x0: seq<U64>, y0: seq<U64>, x1: seq<U64>, y1: seq<U64>): U64
    requires |x0| == |y0| == |x1| == |y1|
  {
    var n := |x0|;
    var a0, b0, a1, b1 := Fill(rnd, d.x0, n), Fill(rnd, d.y0, n), Fill(rnd, d.x1, n), Fill(rnd, d.y1, n);
    if role == 0 then VectorShare(x0, y0, b0, AddAll(x1, a1), AddAll(y1, b1), Gamma(rnd, d.x0, d.y1, n))
    else VectorShare(x1, y1, b1, AddAll(x0, a0), AddAll(y0, b0), Gamma(rnd, d.x1, d.y0, n))
  }

  lemma DotResultShares(rnd: Rand, d: Seeds, x0: seq<U64>, y0: seq<U64>, x1: seq<U64>, y1: seq<U64>)
    requires |x0| == |y0| == |x1| == |y1|
    ensures Add(DotResult(0, rnd, d, x0, y0, x1, y1), DotResult(1, rnd, d, x0, y0, x1, y1)) == Dot(AddAll(x0, x1), AddAll(y0, y1))
  {
    var n := |x0|;
    DotShares(x0, y0, Fill(rnd, d.x0, n), Fill(rnd, d.y0, n), x1, y1, Fill(rnd, d.x1, n), Fill(rnd, d.y1, n));
  }

  lemma DotDealt(tag: nat, x0: seq<U64>, y0: seq<U64>, x1: seq<U64>, y1: seq<U64>, x2: seq<U64>, y2: seq<U64>, rnd: Rand, d: Seeds, n: nat,
                 k0: U64 -> Coroutine, k1: U64 -> Coroutine, k2: U64 -> Coroutine)
    requires |x0| == |y0| == |x1| == |y1| == |x2| == |y2| == n && d == DotDraws(rnd, tag)
    ensures Leads(Trio(DotProc(0, tag, x0, y0, rnd, k0), DotProc(1, tag, x1, y1, rnd, k1), DotProc(2, tag, x2, y2, rnd, k2)),
                  Trio(DotWith(0, tag, x0, y0, Fill(rnd, d.x0, n), Fill(rnd, d.y0, n), Gamma(rnd, d.x0, d.y1, n), k0),
                       DotWith(1, tag, x1, y1, Fill(rnd, d.x1, n), Fill(rnd, d.y1, n), Gamma(rnd, d.x1, d.y0, n), k1), k2(0)))
  {
    DealRound(lines => DotSwap(0, tag, x0, y0, rnd, k0, lines), lines => DotSwap(1, tag, x1, y1, rnd, k1, lines), lines => k2(0),
              SeedMsgs(tag, d.x0, d.y0, Gamma(rnd, d.x0, d.y1, n)), SeedMsgs(tag, d.x1, d.y1, Gamma(rnd, d.x1, d.y0, n)));
  }

  lemma DotRun(tag: nat, x0: seq<U64>, y0: seq<U64>, x1: seq<U64>, y1: seq<U64>, x2: seq<U64>, y2: seq<U64>, rnd: Rand,
               k0: U64 -> Coroutine, k1: U64 -> Coroutine, k2: U64 -> Coroutine)
    requires |x0| == |y0| == |x1| == |y1| == |x2| == |y2|
    ensures Leads(Trio(DotProc(0, tag, x0, y0, rnd, k0), DotProc(1, tag, x1, y1, rnd, k1), DotProc(2, tag, x2, y2, rnd, k2)),
                  Trio(k0(DotResult(0, rnd, DotDraws(rnd, tag), x0, y0, x1, y1)), k1(DotResult(1, rnd, DotDraws(rnd, tag), x0, y0, x1, y1)), k2(0)))
  {
    var d, n := DotDraws(rnd, tag), |x0|;
    var a0, b0, a1, b1 := Fill(rnd, d.x0, n), Fill(rnd, d.y0, n), Fill(rnd, d.x1, n), Fill(rnd, d.y1, n);
    var g0, g1 := Gamma(rnd, d.x0, d.y1, n), Gamma(rnd, d.x1, d.y0, n);
    DotDealt(tag, x0, y0, x1, y1, x2, y2, rnd, d, n, k0, k1, k2);
    DotExchange(tag, x0, y0, a0, b0, g0, x1, y1, a1, b1, g1, k0, k1, k2(0));
    LeadsJoin(Trio(DotProc(0, tag, x0, y0, rnd, k0), DotProc(1, tag, x1, y1, rnd, k1), DotProc(2, tag, x2, y2, rnd, k2)),
              Trio(DotWith(0, tag, x0, y0, a0, b0, g0, k0), DotWith(1, tag, x1, y1, a1, b1, g1, k1), k2(0)),
              Trio(k0(DotResult(0, rnd, d, x0, y0, x1, y1)), k1(DotResult(1, rnd, d, x0, y0, x1, y1)), k2(0)));
  }
}
