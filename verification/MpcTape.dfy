/** Recorded dealer material of mpc/mpcops.hpp, and the decks from which workers replay it. */
module MpcTape {
  import opened Words
  import opened Ring64
  import opened Mpc

  /** What one recorded product writes on a worker's tape: unlike online, worker `i` gets `X_i, Y_i`. */
  function MulEntry(role: nat, idx: U64, d: Draws): (r: seq<Body>)
    ensures |r| == 4
  {
    if role == 0 then [Num(idx), Num(d.x0), Num(d.y0), Num(Mul(d.x0, d.y1))]
    else [Num(idx), Num(d.x1), Num(d.y1), Num(Mul(d.x1, d.y0))]
  }

  function AndEntry(role: nat, idx: U64, d: Masks): (r: seq<Body>)
    ensures |r| == 4
  {
    if role == 0 then [Num(idx), Bits(d.x0), Bits(d.y0), Bits(AndWord(d.x0, d.y1))]
    else [Num(idx), Bits(d.x1), Bits(d.y1), Bits(AndWord(d.x1, d.y0))]
  }

  /** A tape of four-cell entries. */
  function Flat(es: seq<seq<Body>>): (r: seq<Body>)
    requires forall k :: 0 <= k < |es| ==> |es[k]| == 4
    ensures |r| == 4 * |es|
  {
    if es == [] then [] else Flat(es[..|es| - 1]) + es[|es| - 1]
  }

  lemma {:induction false} FlatAt(es: seq<seq<Body>>, k: nat)
    requires (forall i :: 0 <= i < |es| ==> |es[i]| == 4) && k < |es|
    ensures Flat(es)[4 * k..4 * k + 4] == es[k]
    decreases |es|
  {
    var n := |es| - 1;
    if k < n {
      FlatAt(es[..n], k);
      assert (Flat(es[..n]) + es[n])[4 * k..4 * k + 4] == Flat(es[..n])[4 * k..4 * k + 4];
    }
  }

  lemma FlatPush(es: seq<seq<Body>>, e: seq<Body>)
    requires (forall i :: 0 <= i < |es| ==> |es[i]| == 4) && |e| == 4
    ensures Flat(es + [e]) == Flat(es) + e
  {
    assert (es + [e])[..|es|] == es;
  }

  /** The tapes after recording `ds` with a counter that started at `c`: entry `k` carries index `c + k`. */
  function MulEntries(role: nat, c: U64, ds: seq<Draws>): (r: seq<seq<Body>>)
    ensures |r| == |ds| && forall k :: 0 <= k < |r| ==> |r[k]| == 4
  {
    seq(|ds|, k requires 0 <= k < |ds| => MulEntry(role, Wrap(c + k), ds[k]))
  }

  function AndEntries(role: nat, c: U64, ds: seq<Masks>): (r: seq<seq<Body>>)
    ensures |r| == |ds| && forall k :: 0 <= k < |r| ==> |r[k]| == 4
  {
    seq(|ds|, k requires 0 <= k < |ds| => AndEntry(role, Wrap(c + k), ds[k]))
  }

  function MulTape(role: nat, c: U64, ds: seq<Draws>): seq<Body> {
    Flat(MulEntries(role, c, ds))
  }

  function AndTape(role: nat, c: U64, ds: seq<Masks>): seq<Body> {
    Flat(AndEntries(role, c, ds))
  }

  lemma MulTapePush(role: nat, c: U64, ds: seq<Draws>, d: Draws)
    ensures MulTape(role, c, ds + [d]) == MulTape(role, c, ds) + MulEntry(role, Wrap(c + |ds|), d)
  {
    FlatPush(MulEntries(role, c, ds), MulEntry(role, Wrap(c + |ds|), d));
    assert MulEntries(role, c, ds + [d]) == MulEntries(role, c, ds) + [MulEntry(role, Wrap(c + |ds|), d)];
  }

  lemma AndTapePush(role: nat, c: U64, ds: seq<Masks>, d: Masks)
    ensures AndTape(role, c, ds + [d]) == AndTape(role, c, ds) + AndEntry(role, Wrap(c + |ds|), d)
  {
    FlatPush(AndEntries(role, c, ds), AndEntry(role, Wrap(c + |ds|), d));
    assert AndEntries(role, c, ds + [d]) == AndEntries(role, c, ds) + [AndEntry(role, Wrap(c + |ds|), d)];
  }

  lemma NextIndex(c: U64, n: nat)
    ensures Add(Wrap(c + n), 1) == Wrap(c + (n + 1))
  {
    WrapSum(c + n, 1);
  }

  /** The counter and both workers' tapes after recording `ds`. */
  predicate Muls(ctr: U64, out0: seq<Body>, out1: seq<Body>, c: U64, ds: seq<Draws>) {
    ctr == Wrap(c + |ds|) && out0 == MulTape(0, c, ds) && out1 == MulTape(1, c, ds)
  }

  predicate Ands(ctr: U64, out0: seq<Body>, out1: seq<Body>, c: U64, ds: seq<Masks>) {
    ctr == Wrap(c + |ds|) && out0 == AndTape(0, c, ds) && out1 == AndTape(1, c, ds)
  }

  lemma MulsPush(ctr: U64, out0: seq<Body>, out1: seq<Body>, c: U64, ds: seq<Draws>, d: Draws)
    requires Muls(ctr, out0, out1, c, ds)
    ensures Muls(Add(ctr, 1), out0 + MulEntry(0, ctr, d), out1 + MulEntry(1, ctr, d), c, ds + [d])
  {
    MulTapePush(0, c, ds, d);
    MulTapePush(1, c, ds, d);
    NextIndex(c, |ds|);
  }

  lemma AndsPush(ctr: U64, out0: seq<Body>, out1: seq<Body>, c: U64, ds: seq<Masks>, d: Masks)
    requires Ands(ctr, out0, out1, c, ds)
    ensures Ands(Add(ctr, 1), out0 + AndEntry(0, ctr, d), out1 + AndEntry(1, ctr, d), c, ds + [d])
  {
    AndTapePush(0, c, ds, d);
    AndTapePush(1, c, ds, d);
    NextIndex(c, |ds|);
  }

  /** The dealer's context in record mode. */
  class Recorder {
    var mulCtr: U64
    var andCtr: U64
    var mulOut0: seq<Body>
    var mulOut1: seq<Body>
    var andOut0: seq<Body>
    var andOut1: seq<Body>
    ghost var mulStart: U64
    ghost var andStart: U64
    ghost var muls: seq<Draws>
    ghost var ands: seq<Masks>

    ghost predicate Valid()
      reads this
    {
      Muls(mulCtr, mulOut0, mulOut1, mulStart, muls) && Ands(andCtr, andOut0, andOut1, andStart, ands)
    }

    /** The counters are not initialised by the constructor of the context: they start anywhere. */
    constructor (mulStart: U64, andStart: U64)
      ensures Valid() && this.mulStart == mulStart && this.andStart == andStart && muls == [] && ands == []
    {
      mulCtr, andCtr := mulStart, andStart;
      mulOut0, mulOut1, andOut0, andOut1 := [], [], [], [];
      this.mulStart, this.andStart, muls, ands := mulStart, andStart, [], [];
    }

    method RecordMul(d: Draws)
      requires Valid()
      modifies this
      ensures Valid() && muls == old(muls) + [d] && ands == old(ands)
      ensures mulStart == old(mulStart) && andStart == old(andStart)
      ensures mulOut0 == old(mulOut0) + [Num(old(mulCtr)), Num(d.x0), Num(d.y0), Num(d.x0 * d.y1 % 0x1_0000_0000_0000_0000)]
      ensures mulOut1 == old(mulOut1) + [Num(old(mulCtr)), Num(d.x1), Num(d.y1), Num(d.x1 * d.y0 % 0x1_0000_0000_0000_0000)]
      ensures mulCtr == (old(mulCtr) + 1) % 0x1_0000_0000_0000_0000 && andCtr == old(andCtr) && andOut0 == old(andOut0) && andOut1 == old(andOut1)
    {
      MulsPush(mulCtr, mulOut0, mulOut1, mulStart, muls, d);
      var idx := mulCtr;
      mulCtr := Add(mulCtr, 1);
      var g0, g1 := Mul(d.x0, d.y1), Mul(d.x1, d.y0);
      mulOut0 := mulOut0 + [Num(idx), Num(d.x0), Num(d.y0), Num(g0)];
      mulOut1 := mulOut1 + [Num(idx), Num(d.x1), Num(d.y1), Num(g1)];
      muls := muls + [d];
    }

    method RecordAnd(d: Masks)
      requires Valid()
      modifies this
      ensures Valid() && ands == old(ands) + [d] && muls == old(muls)
      ensures mulStart == old(mulStart) && andStart == old(andStart)
      ensures andOut0 == old(andOut0) + [Num(old(andCtr)), Bits(d.x0), Bits(d.y0), Bits(AndWord(d.x0, d.y1))]
      ensures andOut1 == old(andOut1) + [Num(old(andCtr)), Bits(d.x1), Bits(d.y1), Bits(AndWord(d.x1, d.y0))]
      ensures andCtr == (old(andCtr) + 1) % 0x1_0000_0000_0000_0000 && mulCtr == old(mulCtr) && mulOut0 == old(mulOut0) && mulOut1 == old(mulOut1)
    {
      AndsPush(andCtr, andOut0, andOut1, andStart, ands, d);
      var idx := andCtr;
      andCtr := Add(andCtr, 1);
      var g0, g1 := AndWord(d.x0, d.y1), AndWord(d.x1, d.y0);
      andOut0 := andOut0 + [Num(idx), Bits(d.x0), Bits(d.y0), Bits(g0)];
      andOut1 := andOut1 + [Num(idx), Bits(d.x1), Bits(d.y1), Bits(g1)];
      ands := ands + [d];
    }
  }

  // ---------------------------------------------------------------- replay

  /** A worker's two tapes, how far it has read them, and its counters. */
  datatype Deck = Deck(mulTape: seq<Body>, andTape: seq<Body>, mulPos: nat, mulCtr: U64, andPos: nat, andCtr: U64)

  /** A well-formed entry at the reading position whose index is the expected one (otherwise "Replay desync"). */
  predicate MulInSync(deck: Deck) {
    var p := deck.mulPos;
    && p + 4 <= |deck.mulTape| && (forall i :: p <= i < p + 4 ==> deck.mulTape[i].Num?)
    && deck.mulTape[p].n == deck.mulCtr
  }

  predicate AndInSync(deck: Deck) {
    var p := deck.andPos;
    && p + 4 <= |deck.andTape| && deck.andTape[p].Num? && (forall i :: p + 1 <= i < p + 4 ==> deck.andTape[i].Bits?)
    && deck.andTape[p].n == deck.andCtr
  }

  function MulRead(deck: Deck): Deck {
    deck.(mulPos := deck.mulPos + 4, mulCtr := Add(deck.mulCtr, 1))
  }

  function AndRead(deck: Deck): Deck {
    deck.(andPos := deck.andPos + 4, andCtr := Add(deck.andCtr, 1))
  }

  /** What was recorded: the draws of all products and conjunctions, and where the counters started. */
  datatype Recording = Recording(muls: seq<Draws>, ands: seq<Masks>, mulStart: U64, andStart: U64)

  /** A worker's deck after `i` products and `j` conjunctions of the recording. */
  function DeckAt(rec: Recording, role: nat, i: nat, j: nat): Deck {
    Deck(MulTape(role, rec.mulStart, rec.muls), AndTape(role, rec.andStart, rec.ands),
         4 * i, Wrap(rec.mulStart + i), 4 * j, Wrap(rec.andStart + j))
  }

  lemma StartDeck(rec: Recording, role: nat)
    ensures DeckAt(rec, role, 0, 0) == Deck(MulTape(role, rec.mulStart, rec.muls), AndTape(role, rec.andStart, rec.ands), 0, rec.mulStart, 0, rec.andStart)
  {
  }

  /** A worker that opens the recorded tapes is at the start of the recording, with whatever counters it has. */
  method OpenTapes(dealer: Recorder, role: nat, mulCtr: U64, andCtr: U64) returns (deck: Deck)
    requires dealer.Valid() && role < 2
    ensures deck == DeckAt(Recording(dealer.muls, dealer.ands, dealer.mulStart, dealer.andStart), role, 0, 0).(mulCtr := mulCtr, andCtr := andCtr)
  {
    if role == 0 {
      deck := Deck(dealer.mulOut0, dealer.andOut0, 0, mulCtr, 0, andCtr);
    } else {
      deck := Deck(dealer.mulOut1, dealer.andOut1, 0, mulCtr, 0, andCtr);
    }
  }

  lemma NextDeck(rec: Recording, role: nat, i: nat, j: nat)
    ensures MulRead(DeckAt(rec, role, i, j)) == DeckAt(rec, role, i + 1, j)
    ensures AndRead(DeckAt(rec, role, i, j)) == DeckAt(rec, role, i, j + 1)
  {
    NextIndex(rec.mulStart, i);
    NextIndex(rec.andStart, j);
  }

  /** The i-th replayed product is in sync and finds the i-th recorded material. */
  lemma MulMaterial(rec: Recording, role: nat, i: nat, j: nat)
    requires i < |rec.muls|
    ensures MulInSync(DeckAt(rec, role, i, j))
    ensures DeckAt(rec, role, i, j).mulTape[4 * i..4 * i + 4] == MulEntry(role, Wrap(rec.mulStart + i), rec.muls[i])
  {
    var es := MulEntries(role, rec.mulStart, rec.muls);
    FlatAt(es, i);
    var t := Flat(es);
    forall c | 4 * i <= c < 4 * i + 4 ensures t[c] == es[i][c - 4 * i] {
      assert t[c] == t[4 * i..4 * i + 4][c - 4 * i];
    }
  }

  lemma AndMaterial(rec: Recording, role: nat, i: nat, j: nat)
    requires j < |rec.ands|
    ensures AndInSync(DeckAt(rec, role, i, j))
    ensures DeckAt(rec, role, i, j).andTape[4 * j..4 * j + 4] == AndEntry(role, Wrap(rec.andStart + j), rec.ands[j])
  {
    var es := AndEntries(role, rec.andStart, rec.ands);
    FlatAt(es, j);
    var t := Flat(es);
    forall c | 4 * j <= c < 4 * j + 4 ensures t[c] == es[j][c - 4 * j] {
      assert t[c] == t[4 * j..4 * j + 4][c - 4 * j];
    }
  }

  /** The cells of the i-th product entry. */
  lemma MulCells(rec: Recording, role: nat, i: nat, j: nat)
    requires i < |rec.muls|
    ensures var t, d := DeckAt(rec, role, i, j).mulTape, rec.muls[i];
            && |t| >= 4 * i + 4
            && t[4 * i + 1] == Num(if role == 0 then d.x0 else d.x1) && t[4 * i + 2] == Num(if role == 0 then d.y0 else d.y1)
            && t[4 * i + 3] == Num(if role == 0 then Mul(d.x0, d.y1) else Mul(d.x1, d.y0))
  {
    MulMaterial(rec, role, i, j);
    var t := DeckAt(rec, role, i, j).mulTape;
    var e := t[4 * i..4 * i + 4];
    assert e[1] == t[4 * i + 1] && e[2] == t[4 * i + 2] && e[3] == t[4 * i + 3];
  }

  lemma AndCells(rec: Recording, role: nat, i: nat, j: nat)
    requires j < |rec.ands|
    ensures var t, d := DeckAt(rec, role, i, j).andTape, rec.ands[j];
            && |t| >= 4 * j + 4
            && t[4 * j + 1] == Bits(if role == 0 then d.x0 else d.x1) && t[4 * j + 2] == Bits(if role == 0 then d.y0 else d.y1)
            && t[4 * j + 3] == Bits(if role == 0 then AndWord(d.x0, d.y1) else AndWord(d.x1, d.y0))
  {
    AndMaterial(rec, role, i, j);
    var t := DeckAt(rec, role, i, j).andTape;
    var e := t[4 * j..4 * j + 4];
    assert e[1] == t[4 * j + 1] && e[2] == t[4 * j + 2] && e[3] == t[4 * j + 3];
  }

  /** The first entry of the product tape is in sync exactly if the counter is the one the recording started from. */
  lemma MulStartDecides(rec: Recording, role: nat, c: U64)
    requires rec.muls != []
    ensures MulInSync(DeckAt(rec, role, 0, 0).(mulCtr := c)) <==> c == rec.mulStart
  {
    MulMaterial(rec, role, 0, 0);
    var t := DeckAt(rec, role, 0, 0).mulTape;
    assert t[0..4][0] == t[0];
  }

  lemma AndStartDecides(rec: Recording, role: nat, c: U64)
    requires rec.ands != []
    ensures AndInSync(DeckAt(rec, role, 0, 0).(andCtr := c)) <==> c == rec.andStart
  {
    AndMaterial(rec, role, 0, 0);
    var t := DeckAt(rec, role, 0, 0).andTape;
    assert t[0..4][0] == t[0];
  }
}
