/** Products and conjunctions with material from either source: dealt online, or replayed from tapes. */
module MpcSupply {
  import opened Words
  import opened Ring64
  import opened Fifo
  import opened Rounds
  import opened Mpc
  import opened MpcTape

  /** A party's mode: online, a worker with its tapes, or the dealer while the workers replay. */
  datatype Supply = Dealt | Taped(deck: Deck) | Spared

  type NumNext = (U64, Supply) -> Coroutine
  type WordNext = (Word, Supply) -> Coroutine

  /** `mpc_mul` in every mode; an entry out of sync is the "Replay desync" exception. */
  function MulFrom(role: nat, tag: nat, x: U64, y: U64, rnd: Rand, s: Supply, k: NumNext): Coroutine {
    match s
    case Dealt => MulProc(role, tag, x, y, rnd, (z: U64) => k(z, Dealt))
    case Taped(deck) => MulTaped(role, tag, x, y, deck, k)
    case Spared => k(0, Spared)
  }

  function MulTaped(role: nat, tag: nat, x: U64, y: U64, deck: Deck, k: NumNext): Coroutine {
    var p := deck.mulPos;
    if role < 2 && MulInSync(deck) then
      MulWith(role, tag, x, y, deck.mulTape[p + 1].n, deck.mulTape[p + 2].n, deck.mulTape[p + 3].n, (z: U64) => k(z, Taped(MulRead(deck))))
    else Fault
  }

  /** `mpc_and` in every mode. */
  function AndFrom(role: nat, tag: nat, x: Word, y: Word, rnd: Rand, s: Supply, k: WordNext): Coroutine {
    match s
    case Dealt => AndProc(role, tag, x, y, rnd, (z: Word) => k(z, Dealt))
    case Taped(deck) => AndTaped(role, tag, x, y, deck, k)
    case Spared => k(ZeroWord(), Spared)
  }

  function AndTaped(role: nat, tag: nat, x: Word, y: Word, deck: Deck, k: WordNext): Coroutine {
    var p := deck.andPos;
    if role < 2 && AndInSync(deck) then
      AndWith(role, tag, x, y, deck.andTape[p + 1].w, deck.andTape[p + 2].w, deck.andTape[p + 3].w, (z: Word) => k(z, Taped(AndRead(deck))))
    else Fault
  }

  /** `mpc_or`: XOR of the shares, XOR of the shares of the conjunction. */
  function OrFrom(role: nat, tag: nat, x: Word, y: Word, rnd: Rand, s: Supply, k: WordNext): Coroutine {
    AndFrom(role, tag, x, y, rnd, s, (t: Word, s': Supply) => k(XorWord(XorWord(x, y), t), s'))
  }

  // ---------------------------------------------------------------- the three parties' supplies

  /** The mode of a run: online, or replay from position `(i, j)` of a recording. */
  datatype Store = Online | Tapes(rec: Recording, i: nat, j: nat)

  function SupplyOf(st: Store, role: nat): Supply {
    match st
    case Online => Dealt
    case Tapes(rec, i, j) => if role < 2 then Taped(DeckAt(rec, role, i, j)) else Spared
  }

  /** There is material for `m` products and `a` conjunctions. Online there always is. */
  predicate Lasts(st: Store, m: nat, a: nat) {
    st.Tapes? ==> st.i + m <= |st.rec.muls| && st.j + a <= |st.rec.ands|
  }

  function Used(st: Store, m: nat, a: nat): Store {
    match st
    case Online => Online
    case Tapes(rec, i, j) => Tapes(rec, i + m, j + a)
  }

  lemma UsedTwice(st: Store, m: nat, a: nat, m': nat, a': nat)
    ensures Used(Used(st, m, a), m', a') == Used(st, m + m', a + a')
  {
  }

  /** The material of worker `role` in the i-th recorded product, and in the j-th recorded conjunction. */
  function MulMine(role: nat, d: Draws): (U64, U64, U64) {
    if role == 0 then (d.x0, d.y0, Mul(d.x0, d.y1)) else (d.x1, d.y1, Mul(d.x1, d.y0))
  }

  function AndMine(role: nat, d: Masks): (Word, Word, Word) {
    if role == 0 then (d.x0, d.y0, AndWord(d.x0, d.y1)) else (d.x1, d.y1, AndWord(d.x1, d.y0))
  }

  lemma MulOnDeck(role: nat, tag: nat, x: U64, y: U64, deck: Deck, k: NumNext, e: (U64, U64, U64))
    requires role < 2 && MulInSync(deck) && deck.mulTape[deck.mulPos + 1] == Num(e.0)
    requires deck.mulTape[deck.mulPos + 2] == Num(e.1) && deck.mulTape[deck.mulPos + 3] == Num(e.2)
    ensures MulTaped(role, tag, x, y, deck, k) == MulWith(role, tag, x, y, e.0, e.1, e.2, (z: U64) => k(z, Taped(MulRead(deck))))
  {
  }

  lemma AndOnDeck(role: nat, tag: nat, x: Word, y: Word, deck: Deck, k: WordNext, e: (Word, Word, Word))
    requires role < 2 && AndInSync(deck) && deck.andTape[deck.andPos + 1] == Bits(e.0)
    requires deck.andTape[deck.andPos + 2] == Bits(e.1) && deck.andTape[deck.andPos + 3] == Bits(e.2)
    ensures AndTaped(role, tag, x, y, deck, k) == AndWith(role, tag, x, y, e.0, e.1, e.2, (z: Word) => k(z, Taped(AndRead(deck))))
  {
  }

  /** The replayed product is the exchange with the recorded material. */
  lemma MulTapedIs(role: nat, tag: nat, x: U64, y: U64, rec: Recording, i: nat, j: nat, k: NumNext, e: (U64, U64, U64))
    requires role < 2 && i < |rec.muls| && e == MulMine(role, rec.muls[i])
    ensures MulTaped(role, tag, x, y, DeckAt(rec, role, i, j), k)
         == MulWith(role, tag, x, y, e.0, e.1, e.2, (z: U64) => k(z, Taped(MulRead(DeckAt(rec, role, i, j)))))
  {
    MulMaterial(rec, role, i, j);
    MulCells(rec, role, i, j);
    MulOnDeck(role, tag, x, y, DeckAt(rec, role, i, j), k, e);
  }

  lemma AndTapedIs(role: nat, tag: nat, x: Word, y: Word, rec: Recording, i: nat, j: nat, k: WordNext, e: (Word, Word, Word))
    requires role < 2 && j < |rec.ands| && e == AndMine(role, rec.ands[j])
    ensures AndTaped(role, tag, x, y, DeckAt(rec, role, i, j), k)
         == AndWith(role, tag, x, y, e.0, e.1, e.2, (z: Word) => k(z, Taped(AndRead(DeckAt(rec, role, i, j)))))
  {
    AndMaterial(rec, role, i, j);
    AndCells(rec, role, i, j);
    AndOnDeck(role, tag, x, y, DeckAt(rec, role, i, j), k, e);
  }

  /** The workers' results of a replayed product. */
  function TapeMulResult(role: nat, d: Draws, x0: U64, y0: U64, x1: U64, y1: U64): U64 {
    if role == 0 then ProductShare(x0, y0, d.y0, Add(x1, d.x1), Add(y1, d.y1), Mul(d.x0, d.y1))
    else ProductShare(x1, y1, d.y1, Add(x0, d.x0), Add(y0, d.y0), Mul(d.x1, d.y0))
  }

  /** The tape dealing order gives a sharing of the product too. */
  lemma TapeMulResultShares(d: Draws, x0: U64, y0: U64, x1: U64, y1: U64)
    ensures Add(TapeMulResult(0, d, x0, y0, x1, y1), TapeMulResult(1, d, x0, y0, x1, y1)) == Mul(Add(x0, x1), Add(y0, y1))
  {
    ProductShares(x0, y0, d.x0, d.y0, x1, y1, d.x1, d.y1);
  }

  lemma MulReplayed(tag: nat, x0: U64, y0: U64, x1: U64, y1: U64, rec: Recording, i: nat, j: nat, d: Draws, k0: NumNext, k1: NumNext, p2: Coroutine)
    requires i < |rec.muls| && d == rec.muls[i]
    ensures Leads(Trio(MulTaped(0, tag, x0, y0, DeckAt(rec, 0, i, j), k0), MulTaped(1, tag, x1, y1, DeckAt(rec, 1, i, j), k1), p2),
                  Trio(k0(TapeMulResult(0, d, x0, y0, x1, y1), Taped(DeckAt(rec, 0, i + 1, j))),
                       k1(TapeMulResult(1, d, x0, y0, x1, y1), Taped(DeckAt(rec, 1, i + 1, j))), p2))
  {
    MulTapedIs(0, tag, x0, y0, rec, i, j, k0, MulMine(0, d));
    MulTapedIs(1, tag, x1, y1, rec, i, j, k1, MulMine(1, d));
    NextDeck(rec, 0, i, j);
    NextDeck(rec, 1, i, j);
    MulExchange(tag, x0, y0, d.x0, d.y0, Mul(d.x0, d.y1), x1, y1, d.x1, d.y1, Mul(d.x1, d.y0),
                (z: U64) => k0(z, Taped(MulRead(DeckAt(rec, 0, i, j)))), (z: U64) => k1(z, Taped(MulRead(DeckAt(rec, 1, i, j)))), p2);
  }

  lemma AndReplayed(tag: nat, x0: Word, y0: Word, x1: Word, y1: Word, rec: Recording, i: nat, j: nat, d: Masks, k0: WordNext, k1: WordNext, p2: Coroutine)
    requires j < |rec.ands| && d == rec.ands[j]
    ensures Leads(Trio(AndTaped(0, tag, x0, y0, DeckAt(rec, 0, i, j), k0), AndTaped(1, tag, x1, y1, DeckAt(rec, 1, i, j), k1), p2),
                  Trio(k0(AndResult(0, d, x0, y0, x1, y1), Taped(DeckAt(rec, 0, i, j + 1))),
                       k1(AndResult(1, d, x0, y0, x1, y1), Taped(DeckAt(rec, 1, i, j + 1))), p2))
  {
    AndTapedIs(0, tag, x0, y0, rec, i, j, k0, AndMine(0, d));
    AndTapedIs(1, tag, x1, y1, rec, i, j, k1, AndMine(1, d));
    NextDeck(rec, 0, i, j);
    NextDeck(rec, 1, i, j);
    AndExchange(tag, x0, y0, d.x0, d.y0, AndWord(d.x0, d.y1), x1, y1, d.x1, d.y1, AndWord(d.x1, d.y0),
                (z: Word) => k0(z, Taped(AndRead(DeckAt(rec, 0, i, j)))), (z: Word) => k1(z, Taped(AndRead(DeckAt(rec, 1, i, j)))), p2);
  }

  // ---------------------------------------------------------------- one operation of three parties

  /** Three parties go on with their results and what is left of their supplies. */
  function NumsNext(st: Store, k0: NumNext, k1: NumNext, k2: NumNext, z0: U64, z1: U64, z2: U64): State<Msg, seq<Value>> {
    Trio(k0(z0, SupplyOf(st, 0)), k1(z1, SupplyOf(st, 1)), k2(z2, SupplyOf(st, 2)))
  }

  function WordsNext(st: Store, k0: WordNext, k1: WordNext, k2: WordNext, z0: Word, z1: Word, z2: Word): State<Msg, seq<Value>> {
    Trio(k0(z0, SupplyOf(st, 0)), k1(z1, SupplyOf(st, 1)), k2(z2, SupplyOf(st, 2)))
  }

  function MulTrio(tag: nat, x0: U64, y0: U64, x1: U64, y1: U64, x2: U64, y2: U64, rnd: Rand, st: Store,
                   k0: NumNext, k1: NumNext, k2: NumNext): State<Msg, seq<Value>> {
    Trio(MulFrom(0, tag, x0, y0, rnd, SupplyOf(st, 0), k0), MulFrom(1, tag, x1, y1, rnd, SupplyOf(st, 1), k1), MulFrom(2, tag, x2, y2, rnd, SupplyOf(st, 2), k2))
  }

  /** A product in either mode ends in shares of the product. */
  lemma MulFromRun(tag: nat, x0: U64, y0: U64, x1: U64, y1: U64, x2: U64, y2: U64, rnd: Rand, st: Store, k0: NumNext, k1: NumNext, k2: NumNext)
    returns (z0: U64, z1: U64)
    requires Lasts(st, 1, 0)
    ensures Add(z0, z1) == Mul(Add(x0, x1), Add(y0, y1))
    ensures Leads(MulTrio(tag, x0, y0, x1, y1, x2, y2, rnd, st, k0, k1, k2), NumsNext(Used(st, 1, 0), k0, k1, k2, z0, z1, 0))
  {
    match st
    case Online =>
      var d := MulDraws(rnd, tag);
      z0, z1 := MulResult(0, d, x0, y0, x1, y1), MulResult(1, d, x0, y0, x1, y1);
      MulResultShares(d, x0, y0, x1, y1);
      MulRun(tag, x0, y0, x1, y1, x2, y2, rnd, (z: U64) => k0(z, Dealt), (z: U64) => k1(z, Dealt), (z: U64) => k2(z, Dealt));
    case Tapes(rec, i, j) =>
      var d := rec.muls[i];
      z0, z1 := TapeMulResult(0, d, x0, y0, x1, y1), TapeMulResult(1, d, x0, y0, x1, y1);
      TapeMulResultShares(d, x0, y0, x1, y1);
      MulReplayed(tag, x0, y0, x1, y1, rec, i, j, d, k0, k1, k2(0, Spared));
  }

  function AndTrio(tag: nat, x0: Word, y0: Word, x1: Word, y1: Word, x2: Word, y2: Word, rnd: Rand, st: Store,
                   k0: WordNext, k1: WordNext, k2: WordNext): State<Msg, seq<Value>> {
    Trio(AndFrom(0, tag, x0, y0, rnd, SupplyOf(st, 0), k0), AndFrom(1, tag, x1, y1, rnd, SupplyOf(st, 1), k1), AndFrom(2, tag, x2, y2, rnd, SupplyOf(st, 2), k2))
  }

  /** A conjunction in either mode: the results of both modes have the same form, with the masks that were dealt or recorded. */
  lemma AndFromRun(tag: nat, x0: Word, y0: Word, x1: Word, y1: Word, x2: Word, y2: Word, rnd: Rand, st: Store, k0: WordNext, k1: WordNext, k2: WordNext)
    returns (d: Masks)
    requires Lasts(st, 0, 1)
    ensures Leads(AndTrio(tag, x0, y0, x1, y1, x2, y2, rnd, st, k0, k1, k2),
                  WordsNext(Used(st, 0, 1), k0, k1, k2, AndResult(0, d, x0, y0, x1, y1), AndResult(1, d, x0, y0, x1, y1), ZeroWord()))
  {
    match st
    case Online =>
      d := AndDraws(rnd, tag);
      AndRun(tag, x0, y0, x1, y1, x2, y2, rnd, (z: Word) => k0(z, Dealt), (z: Word) => k1(z, Dealt), (z: Word) => k2(z, Dealt));
    case Tapes(rec, i, j) =>
      d := rec.ands[j];
      AndReplayed(tag, x0, y0, x1, y1, rec, i, j, d, k0, k1, k2(ZeroWord(), Spared));
  }

  function OrTrio(tag: nat, x0: Word, y0: Word, x1: Word, y1: Word, x2: Word, y2: Word, rnd: Rand, st: Store,
                  k0: WordNext, k1: WordNext, k2: WordNext): State<Msg, seq<Value>> {
    Trio(OrFrom(0, tag, x0, y0, rnd, SupplyOf(st, 0), k0), OrFrom(1, tag, x1, y1, rnd, SupplyOf(st, 1), k1), OrFrom(2, tag, x2, y2, rnd, SupplyOf(st, 2), k2))
  }

  /** A disjunction in either mode ends in shares of the disjunction. */
  lemma OrFromRun(tag: nat, x0: Word, y0: Word, x1: Word, y1: Word, x2: Word, y2: Word, rnd: Rand, st: Store, k0: WordNext, k1: WordNext, k2: WordNext)
    returns (z0: Word, z1: Word, z2: Word)
    requires Lasts(st, 0, 1)
    ensures XorWord(z0, z1) == OrWord(XorWord(x0, x1), XorWord(y0, y1))
    ensures Leads(OrTrio(tag, x0, y0, x1, y1, x2, y2, rnd, st, k0, k1, k2), WordsNext(Used(st, 0, 1), k0, k1, k2, z0, z1, z2))
  {
    var d := AndFromRun(tag, x0, y0, x1, y1, x2, y2, rnd, st,
      (t: Word, s: Supply) => k0(XorWord(XorWord(x0, y0), t), s), (t: Word, s: Supply) => k1(XorWord(XorWord(x1, y1), t), s),
      (t: Word, s: Supply) => k2(XorWord(XorWord(x2, y2), t), s));
    z0, z1 := OrResult(0, d, x0, y0, x1, y1), OrResult(1, d, x0, y0, x1, y1);
    z2 := XorWord(XorWord(x2, y2), ZeroWord());
    OrResultShares(d, x0, y0, x1, y1);
  }
}
