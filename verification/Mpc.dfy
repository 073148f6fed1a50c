/** The operations of mpc/mpcops.hpp as the coroutines of P0, P1 and the dealer P2. */
module Mpc {
  import opened Blocks
  import opened Words
  import opened Ring64
  import opened Fifo
  import opened Rounds

  datatype Body = Num(n: U64) | Bits(w: Word) | Seed(s: Block) | Vec(v: seq<U64>)

  /** A message, labelled with the operation it was sent in. */
  datatype Msg = Msg(tag: nat, body: Body)

  /** A share: of an additive or of an XOR sharing. */
  datatype Value = A(n: U64) | X(w: Word)

  type Coroutine = Proc<Msg, seq<Value>>
  type Lines = seq<Line<Msg>>

  /** What the dealer draws in operation `tag`, and the word stream behind a PRG seed. All arbitrary. */
  datatype Rand = Rand(num: (nat, nat) -> U64, word: (nat, nat) -> Word, seed: (nat, nat) -> Block, stream: (Block, nat) -> U64)

  /** The messages a coroutine got from `q`, all of operation `tag`. */
  predicate Got(lines: Lines, q: nat, tag: nat, count: nat) {
    |lines| == 3 && q < 3 && |lines[q].got| == count && forall i :: 0 <= i < count ==> lines[q].got[i].tag == tag
  }

  predicate GotNums(lines: Lines, q: nat, tag: nat, count: nat) {
    Got(lines, q, tag, count) && forall i :: 0 <= i < count ==> lines[q].got[i].body.Num?
  }

  predicate GotWords(lines: Lines, q: nat, tag: nat, count: nat) {
    Got(lines, q, tag, count) && forall i :: 0 <= i < count ==> lines[q].got[i].body.Bits?
  }

  function NumAt(lines: Lines, q: nat, i: nat): U64
    requires q < |lines| && i < |lines[q].got| && lines[q].got[i].body.Num?
  {
    lines[q].got[i].body.n
  }

  function WordAt(lines: Lines, q: nat, i: nat): Word
    requires q < |lines| && i < |lines[q].got| && lines[q].got[i].body.Bits?
  {
    lines[q].got[i].body.w
  }

  function Nums(tag: nat, ns: seq<U64>): (r: seq<Msg>)
    ensures |r| == |ns| && forall i :: 0 <= i < |ns| ==> r[i] == Msg(tag, Num(ns[i]))
  {
    seq(|ns|, i requires 0 <= i < |ns| => Msg(tag, Num(ns[i])))
  }

  function WordsOf(tag: nat, ws: seq<Word>): (r: seq<Msg>)
    ensures |r| == |ws| && forall i :: 0 <= i < |ws| ==> r[i] == Msg(tag, Bits(ws[i]))
  {
    seq(|ws|, i requires 0 <= i < |ws| => Msg(tag, Bits(ws[i])))
  }

  // ---------------------------------------------------------------- mpc_mul

  /** The dealer's four draws of a product, in the order in which it makes them. */
  datatype Draws = Draws(x0: U64, y0: U64, x1: U64, y1: U64)

  function MulDraws(rnd: Rand, tag: nat): Draws {
    Draws(rnd.num(tag, 0), rnd.num(tag, 1), rnd.num(tag, 2), rnd.num(tag, 3))
  }

  /** Online, P0 is sent `X0, X1` and P1 is sent `Y0, Y1`. */
  function MulFor0(d: Draws): seq<U64> {
    [d.x0, d.x1, Mul(d.x0, d.y1)]
  }

  function MulFor1(d: Draws): seq<U64> {
    [d.y0, d.y1, Mul(d.x1, d.y0)]
  }

  function MulProc(role: nat, tag: nat, x: U64, y: U64, rnd: Rand, k: U64 -> Coroutine): Coroutine {
    if role == 2 then
      Deal(Nums(tag, MulFor0(MulDraws(rnd, tag))), Nums(tag, MulFor1(MulDraws(rnd, tag))), lines => k(0))
    else
      Take(3, lines => MulSwap(role, tag, x, y, k, lines))
  }

  function MulSwap(role: nat, tag: nat, x: U64, y: U64, k: U64 -> Coroutine, lines: Lines): Coroutine {
    if role < 2 && GotNums(lines, 2, tag, 3) then
      MulWith(role, tag, x, y, NumAt(lines, 2, 0), NumAt(lines, 2, 1), NumAt(lines, 2, 2), k)
    else
      Fault
  }

  /** A worker that has its mask pair and its `gamma` exchanges masked values. */
  function MulWith(role: nat, tag: nat, x: U64, y: U64, a: U64, b: U64, g: U64, k: U64 -> Coroutine): Coroutine
    requires role < 2
  {
    Swap(role, Nums(tag, [Add(x, a), Add(y, b)]), 2, lines => MulEnd(role, tag, x, y, b, g, k, lines))
  }

  function MulEnd(role: nat, tag: nat, x: U64, y: U64, b: U64, g: U64, k: U64 -> Coroutine, lines: Lines): Coroutine {
    if role < 2 && GotNums(lines, 1 - role, tag, 2) then
      k(ProductShare(x, y, b, NumAt(lines, 1 - role, 0), NumAt(lines, 1 - role, 1), g))
    else
      Fault
  }

  /** The two workers' exchange, whatever P2 does meanwhile. */
  lemma MulExchange(tag: nat, x0: U64, y0: U64, a0: U64, b0: U64, g0: U64, x1: U64, y1: U64, a1: U64, b1: U64, g1: U64,
                    k0: U64 -> Coroutine, k1: U64 -> Coroutine, p2: Coroutine)
    ensures Leads(Trio(MulWith(0, tag, x0, y0, a0, b0, g0, k0), MulWith(1, tag, x1, y1, a1, b1, g1, k1), p2),
                  Trio(k0(ProductShare(x0, y0, b0, Add(x1, a1), Add(y1, b1), g0)), k1(ProductShare(x1, y1, b1, Add(x0, a0), Add(y0, b0), g1)), p2))
  {
    var m0, m1 := Nums(tag, [Add(x0, a0), Add(y0, b0)]), Nums(tag, [Add(x1, a1), Add(y1, b1)]);
    SwapRound(lines => MulEnd(0, tag, x0, y0, b0, g0, k0, lines), lines => MulEnd(1, tag, x1, y1, b1, g1, k1, lines), p2, m0, m1);
  }

  /** The workers' results of an online product. */
  function MulResult(role: nat, d: Draws, x0: U64, y0: U64, x1: U64, y1: U64): U64 {
    if role == 0 then ProductShare(x0, y0, d.x1, Add(x1, d.y0), Add(y1, d.y1), Mul(d.x0, d.y1))
    else ProductShare(x1, y1, d.y1, Add(x0, d.x0), Add(y0, d.x1), Mul(d.x1, d.y0))
  }

  /** The online dealing order still gives a sharing of the product. */
  lemma MulResultShares(d: Draws, x0: U64, y0: U64, x1: U64, y1: U64)
    ensures Add(MulResult(0, d, x0, y0, x1, y1), MulResult(1, d, x0, y0, x1, y1)) == Mul(Add(x0, x1), Add(y0, y1))
  {
    ProductShares(x0, y0, d.x0, d.x1, x1, y1, d.y0, d.y1);
    assert Mul(d.x1, d.y0) == Mul(d.y0, d.x1);
  }

  lemma MulDealt(tag: nat, x0: U64, y0: U64, x1: U64, y1: U64, x2: U64, y2: U64, rnd: Rand,
                 k0: U64 -> Coroutine, k1: U64 -> Coroutine, k2: U64 -> Coroutine)
    ensures var d := MulDraws(rnd, tag);
      Leads(Trio(MulProc(0, tag, x0, y0, rnd, k0), MulProc(1, tag, x1, y1, rnd, k1), MulProc(2, tag, x2, y2, rnd, k2)),
            Trio(MulWith(0, tag, x0, y0, d.x0, d.x1, Mul(d.x0, d.y1), k0), MulWith(1, tag, x1, y1, d.y0, d.y1, Mul(d.x1, d.y0), k1), k2(0)))
  {
    var d := MulDraws(rnd, tag);
    DealRound(lines => MulSwap(0, tag, x0, y0, k0, lines), lines => MulSwap(1, tag, x1, y1, k1, lines), lines => k2(0),
              Nums(tag, MulFor0(d)), Nums(tag, MulFor1(d)));
  }

  lemma MulRun(tag: nat, x0: U64, y0: U64, x1: U64, y1: U64, x2: U64, y2: U64, rnd: Rand,
               k0: U64 -> Coroutine, k1: U64 -> Coroutine, k2: U64 -> Coroutine)
    ensures var d := MulDraws(rnd, tag);
      Leads(Trio(MulProc(0, tag, x0, y0, rnd, k0), MulProc(1, tag, x1, y1, rnd, k1), MulProc(2, tag, x2, y2, rnd, k2)),
            Trio(k0(MulResult(0, d, x0, y0, x1, y1)), k1(MulResult(1, d, x0, y0, x1, y1)), k2(0)))
  {
    var d := MulDraws(rnd, tag);
    MulDealt(tag, x0, y0, x1, y1, x2, y2, rnd, k0, k1, k2);
    MulExchange(tag, x0, y0, d.x0, d.x1, Mul(d.x0, d.y1), x1, y1, d.y0, d.y1, Mul(d.x1, d.y0), k0, k1, k2(0));
    LeadsJoin(Trio(MulProc(0, tag, x0, y0, rnd, k0), MulProc(1, tag, x1, y1, rnd, k1), MulProc(2, tag, x2, y2, rnd, k2)),
              Trio(MulWith(0, tag, x0, y0, d.x0, d.x1, Mul(d.x0, d.y1), k0), MulWith(1, tag, x1, y1, d.y0, d.y1, Mul(d.x1, d.y0), k1), k2(0)),
              Trio(k0(MulResult(0, d, x0, y0, x1, y1)), k1(MulResult(1, d, x0, y0, x1, y1)), k2(0)));
  }

  // ---------------------------------------------------------------- mpc_and, mpc_or

  datatype Masks = Masks(x0: Word, y0: Word, x1: Word, y1: Word)

  function AndDraws(rnd: Rand, tag: nat): Masks {
    Masks(rnd.word(tag, 0), rnd.word(tag, 1), rnd.word(tag, 2), rnd.word(tag, 3))
  }

  function AndFor0(d: Masks): seq<Word> {
    [d.x0, d.y0, AndWord(d.x0, d.y1)]
  }

  function AndFor1(d: Masks): seq<Word> {
    [d.x1, d.y1, AndWord(d.x1, d.y0)]
  }

  function AndProc(role: nat, tag: nat, x: Word, y: Word, rnd: Rand, k: Word -> Coroutine): Coroutine {
    if role == 2 then
      Deal(WordsOf(tag, AndFor0(AndDraws(rnd, tag))), WordsOf(tag, AndFor1(AndDraws(rnd, tag))), lines => k(ZeroWord()))
    else
      Take(3, lines => AndSwap(role, tag, x, y, k, lines))
  }

  function AndSwap(role: nat, tag: nat, x: Word, y: Word, k: Word -> Coroutine, lines: Lines): Coroutine {
    if role < 2 && GotWords(lines, 2, tag, 3) then
      AndWith(role, tag, x, y, WordAt(lines, 2, 0), WordAt(lines, 2, 1), WordAt(lines, 2, 2), k)
    else
      Fault
  }

  function AndWith(role: nat, tag: nat, x: Word, y: Word, a: Word, b: Word, g: Word, k: Word -> Coroutine): Coroutine
    requires role < 2
  {
    Swap(role, WordsOf(tag, [XorWord(x, a), XorWord(y, b)]), 2, lines => AndEnd(role, tag, x, y, b, g, k, lines))
  }

  function AndEnd(role: nat, tag: nat, x: Word, y: Word, b: Word, g: Word, k: Word -> Coroutine, lines: Lines): Coroutine {
    if role < 2 && GotWords(lines, 1 - role, tag, 2) then
      k(AndShare(x, y, b, WordAt(lines, 1 - role, 0), WordAt(lines, 1 - role, 1), g))
    else
      Fault
  }

  lemma AndExchange(tag: nat, x0: Word, y0: Word, a0: Word, b0: Word, g0: Word, x1: Word, y1: Word, a1: Word, b1: Word, g1: Word,
                    k0: Word -> Coroutine, k1: Word -> Coroutine, p2: Coroutine)
    ensures Leads(Trio(AndWith(0, tag, x0, y0, a0, b0, g0, k0), AndWith(1, tag, x1, y1, a1, b1, g1, k1), p2),
                  Trio(k0(AndShare(x0, y0, b0, XorWord(x1, a1), XorWord(y1, b1), g0)), k1(AndShare(x1, y1, b1, XorWord(x0, a0), XorWord(y0, b0), g1)), p2))
  {
    var m0, m1 := WordsOf(tag, [XorWord(x0, a0), XorWord(y0, b0)]), WordsOf(tag, [XorWord(x1, a1), XorWord(y1, b1)]);
    SwapRound(lines => AndEnd(0, tag, x0, y0, b0, g0, k0, lines), lines => AndEnd(1, tag, x1, y1, b1, g1, k1, lines), p2, m0, m1);
  }

  /** The workers' results of a conjunction dealt as `X_i, Y_i`. */
  function AndResult(role: nat, d: Masks, x0: Word, y0: Word, x1: Word, y1: Word): Word {
    if role == 0 then AndShare(x0, y0, d.y0, XorWord(x1, d.x1), XorWord(y1, d.y1), AndWord(d.x0, d.y1))
    else AndShare(x1, y1, d.y1, XorWord(x0, d.x0), XorWord(y0, d.y0), AndWord(d.x1, d.y0))
  }

  lemma AndResultShares(d: Masks, x0: Word, y0: Word, x1: Word, y1: Word)
    ensures XorWord(AndResult(0, d, x0, y0, x1, y1), AndResult(1, d, x0, y0, x1, y1)) == AndWord(XorWord(x0, x1), XorWord(y0, y1))
  {
    AndShares(x0, y0, d.x0, d.y0, x1, y1, d.x1, d.y1);
  }

  lemma AndDealt(tag: nat, x0: Word, y0: Word, x1: Word, y1: Word, x2: Word, y2: Word, rnd: Rand,
                 k0: Word -> Coroutine, k1: Word -> Coroutine, k2: Word -> Coroutine)
    ensures var d := AndDraws(rnd, tag);
      Leads(Trio(AndProc(0, tag, x0, y0, rnd, k0), AndProc(1, tag, x1, y1, rnd, k1), AndProc(2, tag, x2, y2, rnd, k2)),
            Trio(AndWith(0, tag, x0, y0, d.x0, d.y0, AndWord(d.x0, d.y1), k0), AndWith(1, tag, x1, y1, d.x1, d.y1, AndWord(d.x1, d.y0), k1), k2(ZeroWord())))
  {
    var d := AndDraws(rnd, tag);
    DealRound(lines => AndSwap(0, tag, x0, y0, k0, lines), lines => AndSwap(1, tag, x1, y1, k1, lines), lines => k2(ZeroWord()),
              WordsOf(tag, AndFor0(d)), WordsOf(tag, AndFor1(d)));
  }

  lemma AndRun(tag: nat, x0: Word, y0: Word, x1: Word, y1: Word, x2: Word, y2: Word, rnd: Rand,
               k0: Word -> Coroutine, k1: Word -> Coroutine, k2: Word -> Coroutine)
    ensures var d := AndDraws(rnd, tag);
      Leads(Trio(AndProc(0, tag, x0, y0, rnd, k0), AndProc(1, tag, x1, y1, rnd, k1), AndProc(2, tag, x2, y2, rnd, k2)),
            Trio(k0(AndResult(0, d, x0, y0, x1, y1)), k1(AndResult(1, d, x0, y0, x1, y1)), k2(ZeroWord())))
  {
    var d := AndDraws(rnd, tag);
    AndDealt(tag, x0, y0, x1, y1, x2, y2, rnd, k0, k1, k2);
    AndExchange(tag, x0, y0, d.x0, d.y0, AndWord(d.x0, d.y1), x1, y1, d.x1, d.y1, AndWord(d.x1, d.y0), k0, k1, k2(ZeroWord()));
    LeadsJoin(Trio(AndProc(0, tag, x0, y0, rnd, k0), AndProc(1, tag, x1, y1, rnd, k1), AndProc(2, tag, x2, y2, rnd, k2)),
              Trio(AndWith(0, tag, x0, y0, d.x0, d.y0, AndWord(d.x0, d.y1), k0), AndWith(1, tag, x1, y1, d.x1, d.y1, AndWord(d.x1, d.y0), k1), k2(ZeroWord())),
              Trio(k0(AndResult(0, d, x0, y0, x1, y1)), k1(AndResult(1, d, x0, y0, x1, y1)), k2(ZeroWord())));
  }

  /** The workers' results of a disjunction. */
  function OrResult(role: nat, d: Masks, x0: Word, y0: Word, x1: Word, y1: Word): Word {
    XorWord(if role == 0 then XorWord(x0, y0) else XorWord(x1, y1), AndResult(role, d, x0, y0, x1, y1))
  }

  lemma OrResultShares(d: Masks, x0: Word, y0: Word, x1: Word, y1: Word)
    ensures XorWord(OrResult(0, d, x0, y0, x1, y1), OrResult(1, d, x0, y0, x1, y1)) == OrWord(XorWord(x0, x1), XorWord(y0, y1))
  {
    var z0, z1 := AndResult(0, d, x0, y0, x1, y1), AndResult(1, d, x0, y0, x1, y1);
    AndResultShares(d, x0, y0, x1, y1);
    XorWordSwap(XorWord(x0, y0), z0, XorWord(x1, y1), z1);
    XorWordSwap(x0, y0, x1, y1);
    OrFromXorAnd(XorWord(x0, x1), XorWord(y0, y1));
  }
}
