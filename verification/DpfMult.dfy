// Multiplication of a shared bit by a shared block from correlated OTs, two OTs
// (one in each direction) per product. `multiply` suspends once, between sending
// its masked operands and receiving the other party's; `Begin` and `Finish` are
// the code before and after that point.
module DpfMult {
  import opened Blocks

  /** The operands of one call masked by the OT correlation. */
  datatype Message = Message(theta: seq<Block>, phi: seq<bool>)

  /** The local variables that live across the suspension point. */
  datatype Frame = Frame(a: seq<bool>, c: seq<Block>, b: seq<Block>, mine: Message)

  datatype Outcome = Failed | Begun(frame: Frame)

  /** The OT sender's difference, an OLE operand. */
  function Delta(send: (Block, Block)): Block {
    Xor(send.0, send.1)
  }

  /** This party's share of the Beaver triple's product. */
  function TripleShare(a: bool, recv: Block, send: (Block, Block)): Block {
    Xor(Xor(recv, send.0), And(Delta(send), Saturate(a)))
  }

  /** This party's share of the product, from the opened sums `theta` and `phi`. */
  function ProductShare(party: bool, a: bool, c: Block, b: Block, theta: Block, phi: bool): Block {
    var s := Xor(Xor(c, And(theta, Saturate(a))), And(Saturate(phi), b));
    if party then Xor(s, And(theta, Saturate(phi))) else s
  }

  /** One OT in each direction, correlated, turns masked openings into shares of the product. */
  lemma ProductIdentity(x0: bool, x1: bool, y0: Block, y1: Block, a0: bool, a1: bool,
                        s0: (Block, Block), s1: (Block, Block), r0: Block, r1: Block)
    requires r0 == (if a0 then s1.1 else s1.0) && r1 == (if a1 then s0.1 else s0.0)
    ensures var theta := Xor(Xor(y0, Delta(s0)), Xor(y1, Delta(s1)));
            var phi := (x0 != a0) != (x1 != a1);
            Xor(ProductShare(false, a0, TripleShare(a0, r0, s0), Delta(s0), theta, phi),
                ProductShare(true, a1, TripleShare(a1, r1, s1), Delta(s1), theta, phi))
            == Mask(x0 != x1, Xor(y0, y1))
  {
    var theta := Xor(Xor(y0, Delta(s0)), Xor(y1, Delta(s1)));
    var phi := (x0 != a0) != (x1 != a1);
    var p0 := ProductShare(false, a0, TripleShare(a0, r0, s0), Delta(s0), theta, phi);
    var p1 := ProductShare(true, a1, TripleShare(a1, r1, s1), Delta(s1), theta, phi);
    BitLaws();
    Extensional(Xor(p0, p1), Mask(x0 != x1, Xor(y0, y1)));
  }

  /** `phi` is padded to whole bytes before it is sent. */
  function Padded(n: nat): (m: nat)
    ensures n <= m < n + 8 && m % 8 == 0
  {
    (n + 7) / 8 * 8
  }

  datatype OtSlice = OtSlice(choice: seq<bool>, recv: seq<Block>, send: seq<(Block, Block)>)

  /** The first `n` operands are masked by the first `n` OTs. */
  ghost predicate Masked(f: Frame, ots: OtSlice, x: seq<bool>, y: seq<Block>, n: nat) {
    && n <= |x| == |y| == |f.a| == |ots.recv| == |ots.send| && n <= |f.c| && n <= |f.b| && n <= |f.mine.theta| && n <= |f.mine.phi|
    && (forall i :: 0 <= i < n ==> f.b[i] == Delta(ots.send[i]))
    && (forall i :: 0 <= i < n ==> f.c[i] == TripleShare(f.a[i], ots.recv[i], ots.send[i]))
    && (forall i :: 0 <= i < n ==> f.mine.theta[i] == Xor(y[i], f.b[i]))
    && (forall i :: 0 <= i < n ==> f.mine.phi[i] == (x[i] != f.a[i]))
  }

  lemma MaskedPush(f: Frame, f': Frame, ots: OtSlice, x: seq<bool>, y: seq<Block>, n: nat)
    requires Masked(f, ots, x, y, n) && n < |x| && |f.c| == |f.b| == |f.mine.theta| == |f.mine.phi| == n
    requires f'.a == f.a && f'.b == f.b + [Delta(ots.send[n])] && f'.c == f.c + [TripleShare(f.a[n], ots.recv[n], ots.send[n])]
    requires f'.mine.theta == f.mine.theta + [Xor(y[n], Delta(ots.send[n]))] && f'.mine.phi == f.mine.phi + [x[n] != f.a[n]]
    ensures Masked(f', ots, x, y, n + 1)
  {
  }

  /** What a call keeps across its suspension point, for operands `x`, `y` and its OTs. */
  ghost predicate FrameFor(f: Frame, ots: OtSlice, x: seq<bool>, y: seq<Block>) {
    && f.a == ots.choice && |f.a| == |f.c| == |f.b| == |f.mine.theta| == |x| && |f.mine.phi| == Padded(|x|)
    && Masked(f, ots, x, y, |x|)
  }

  /** The share of each product a party computes from both messages. */
  ghost predicate SharesFor(party: bool, f: Frame, theirs: Message, xy: seq<Block>)
    requires |f.a| == |f.c| == |f.b| == |f.mine.theta| == |theirs.theta| == |xy|
    requires |f.mine.phi| == |theirs.phi| >= |xy|
  {
    forall i :: 0 <= i < |xy| ==>
      xy[i] == ProductShare(party, f.a[i], f.c[i], f.b[i],
                            Xor(f.mine.theta[i], theirs.theta[i]), f.mine.phi[i] != theirs.phi[i])
  }

  ghost predicate CorrelatedOts(o0: OtSlice, o1: OtSlice) {
    && |o0.choice| == |o0.recv| == |o0.send| == |o1.choice| == |o1.recv| == |o1.send|
    && (forall i :: 0 <= i < |o0.recv| ==> o0.recv[i] == if o0.choice[i] then o1.send[i].1 else o1.send[i].0)
    && (forall i :: 0 <= i < |o1.recv| ==> o1.recv[i] == if o1.choice[i] then o0.send[i].1 else o0.send[i].0)
  }

  /** Exchanged messages over correlated OTs leave the parties with shares of the products. */
  lemma ExchangeSharesProducts(f0: Frame, f1: Frame, o0: OtSlice, o1: OtSlice, x0: seq<bool>, x1: seq<bool>,
                               y0: seq<Block>, y1: seq<Block>, xy0: seq<Block>, xy1: seq<Block>)
    requires |x0| == |x1| == |xy0| == |xy1|
    requires FrameFor(f0, o0, x0, y0) && FrameFor(f1, o1, x1, y1) && CorrelatedOts(o0, o1)
    requires SharesFor(false, f0, f1.mine, xy0) && SharesFor(true, f1, f0.mine, xy1)
    ensures ShareProducts(x0, x1, y0, y1, xy0, xy1)
  {
    forall i | 0 <= i < |x0| ensures Xor(xy0[i], xy1[i]) == Mask(x0[i] != x1[i], Xor(y0[i], y1[i])) {
      XorComm(f0.mine.theta[i], f1.mine.theta[i]);
      ProductIdentity(x0[i], x1[i], y0[i], y1[i], f0.a[i], f1.a[i], o0.send[i], o1.send[i], o0.recv[i], o1.recv[i]);
    }
  }

  class Multiplier {
    var partyIdx: nat
    var totalMults: nat
    var choiceBits: seq<bool>
    var recvOts: seq<Block>
    var sendOts: seq<(Block, Block)>
    var otIdx: nat

    ghost predicate Ready()
      reads this
    {
      partyIdx <= 1 && |choiceBits| == |recvOts| == |sendOts| == totalMults && otIdx <= totalMults
    }

    constructor ()
      ensures partyIdx == 0 && totalMults == 0 && otIdx == 0 && choiceBits == [] && recvOts == [] && sendOts == []
    {
      partyIdx, totalMults, otIdx := 0, 0, 0;
      choiceBits, recvOts, sendOts := [], [], [];
    }

    /** Fails on a bad party index; otherwise forgets all OTs. */
    method Init(party: nat, n: nat) returns (ok: bool)
      modifies this
      ensures ok == (party <= 1)
      ensures ok ==> partyIdx == party && totalMults == n && otIdx == 0 && choiceBits == [] && recvOts == [] && sendOts == []
      ensures !ok ==> unchanged(this)
    {
      if party > 1 {
        return false;
      }
      partyIdx, totalMults, otIdx := party, n, 0;
      sendOts, recvOts, choiceBits := [], [], [];
      ok := true;
    }

    /** Installs exactly `totalMults` OTs in each direction, or fails and changes nothing. */
    method SetBaseOts(send: seq<(Block, Block)>, recv: seq<Block>, choices: seq<bool>) returns (ok: bool)
      modifies this
      ensures ok == (|send| == |recv| == |choices| == old(totalMults))
      ensures partyIdx == old(partyIdx) && totalMults == old(totalMults)
      ensures if ok then sendOts == send && recvOts == recv && choiceBits == choices && otIdx == 0
              else sendOts == old(sendOts) && recvOts == old(recvOts) && choiceBits == old(choiceBits) && otIdx == old(otIdx)
    {
      if |send| != totalMults || |recv| != totalMults || |choices| != totalMults {
        return false;
      }
      sendOts, recvOts, choiceBits, otIdx := send, recv, choices, 0;
      ok := true;
    }

    /** Fails on size mismatch, an exhausted OT budget or missing OTs. */
    method Begin(x: seq<bool>, y: array<Block>, xyLength: nat) returns (r: Outcome)
      requires Ready()
      ensures r.Begun? <==> |x| == y.Length == xyLength && |x| + otIdx <= totalMults && choiceBits != []
      ensures r.Begun? ==> FrameFor(r.frame, Ots(|x|), x, y[..])
    {
      if |x| != y.Length || |x| != xyLength || |x| + otIdx > totalMults || |choiceBits| == 0 {
        return Failed;
      }
      var a := choiceBits[otIdx..otIdx + |x|];
      ghost var ots := Ots(|x|);
      var c, theta, b, phi := [], [], [], [];
      var j := 0;
      while j < |x|
        invariant 0 <= j <= |x| && |c| == |theta| == |b| == |phi| == j
        invariant Masked(Frame(a, c, b, Message(theta, phi)), ots, x, y[..], j)
      {
        ghost var f := Frame(a, c, b, Message(theta, phi));
        var send := sendOts[otIdx + j];
        var bj := Xor(send.0, send.1);
        b := b + [bj];
        c := c + [Xor(Xor(recvOts[otIdx + j], send.0), And(bj, Saturate(a[j])))];
        theta := theta + [Xor(y[j], bj)];
        phi := phi + [x[j] != a[j]];
        MaskedPush(f, Frame(a, c, b, Message(theta, phi)), ots, x, y[..], j);
        j := j + 1;
      }
      phi := phi + Repeat(false, Padded(|x|) - |x|);
      r := Begun(Frame(a, c, b, Message(theta, phi)));
    }

    /** The OTs the next `n` products use. */
    ghost function Ots(n: nat): OtSlice
      requires Ready() && otIdx + n <= totalMults
      reads this
    {
      OtSlice(choiceBits[otIdx..otIdx + n], recvOts[otIdx..otIdx + n], sendOts[otIdx..otIdx + n])
    }

    /** `xy` may be the array `y` given to `Begin`: `y` is not read again. */
    method Finish(f: Frame, theirs: Message, xy: array<Block>) returns (ok: bool)
      requires |f.a| == |f.c| == |f.b| == |f.mine.theta| == xy.Length && |f.mine.phi| == Padded(xy.Length)
      modifies xy, this`otIdx
      ensures ok == (|theirs.theta| == xy.Length && |theirs.phi| == Padded(xy.Length))
      ensures otIdx == old(otIdx) + if ok then xy.Length else 0
      ensures ok ==> SharesFor(partyIdx == 1, f, theirs, xy[..])
    {
      if |theirs.theta| != xy.Length || |theirs.phi| != Padded(xy.Length) {
        return false;
      }
      var j := 0;
      while j < xy.Length
        invariant 0 <= j <= xy.Length && otIdx == old(otIdx)
        invariant forall i :: 0 <= i < j ==>
                    xy[i] == ProductShare(partyIdx == 1, f.a[i], f.c[i], f.b[i],
                                          Xor(f.mine.theta[i], theirs.theta[i]), f.mine.phi[i] != theirs.phi[i])
      {
        var phi := f.mine.phi[j] != theirs.phi[j];
        var theta := Xor(f.mine.theta[j], theirs.theta[j]);
        xy[j] := Xor(Xor(f.c[j], And(theta, Saturate(f.a[j]))), And(Saturate(phi), f.b[j]));
        if partyIdx == 1 {
          xy[j] := Xor(xy[j], And(theta, Saturate(phi)));
        }
        j := j + 1;
      }
      otIdx := otIdx + xy.Length;
      ok := true;
    }
  }

  /** The two parties' OTs are correlated: each received message is the chosen sent one. */
  ghost predicate Correlated(m0: Multiplier, m1: Multiplier)
    reads m0, m1
  {
    && m0.Ready() && m1.Ready() && m0.partyIdx == 0 && m1.partyIdx == 1
    && m0.totalMults == m1.totalMults && m0.otIdx == m1.otIdx
    && CorrelatedOts(OtSlice(m0.choiceBits, m0.recvOts, m0.sendOts), OtSlice(m1.choiceBits, m1.recvOts, m1.sendOts))
  }

  /** What a correlated OT source hands to the two parties. */
  datatype BaseOts = BaseOts(send: seq<(Block, Block)>, recv: seq<Block>, choices: seq<bool>)

  /** Two new multipliers for `n` products with fresh OTs: set up exactly if `n` OTs are given in each direction. */
  method Setup(n: nat, o0: BaseOts, o1: BaseOts) returns (ok: bool, m0: Multiplier, m1: Multiplier)
    requires CorrelatedOts(OtSlice(o0.choices, o0.recv, o0.send), OtSlice(o1.choices, o1.recv, o1.send))
    ensures ok == (|o0.send| == n) && fresh(m0) && fresh(m1)
    ensures ok ==> m0 != m1 && Correlated(m0, m1) && m0.otIdx == 0 && m0.totalMults == n
  {
    m0 := new Multiplier();
    m1 := new Multiplier();
    var i0 := m0.Init(0, n);
    var i1 := m1.Init(1, n);
    var s0 := m0.SetBaseOts(o0.send, o0.recv, o0.choices);
    var s1 := m1.SetBaseOts(o1.send, o1.recv, o1.choices);
    ok := i0 && i1 && s0 && s1;
  }

  /** `xy0`, `xy1` share the products of the shared bits `x` and the shared blocks `y`. */
  ghost predicate ShareProducts(x0: seq<bool>, x1: seq<bool>, y0: seq<Block>, y1: seq<Block>, xy0: seq<Block>, xy1: seq<Block>) {
    && |x0| == |x1| == |y0| == |y1| == |xy0| == |xy1|
    && forall i :: 0 <= i < |x0| ==> Xor(xy0[i], xy1[i]) == Mask(x0[i] != x1[i], Xor(y0[i], y1[i]))
  }

  lemma CorrelatedWindow(m0: Multiplier, m1: Multiplier, n: nat)
    requires Correlated(m0, m1) && m0.otIdx + n <= m0.totalMults
    ensures CorrelatedOts(m0.Ots(n), m1.Ots(n))
  {
  }

  /** Both parties' `multiply` calls, each receiving what the other sent. Succeeds exactly
      when the sizes agree and the OT budget lasts, and consumes one OT pair per product. */
  method MultiplyPair(m0: Multiplier, m1: Multiplier, x0: seq<bool>, x1: seq<bool>,
                      y0: array<Block>, y1: array<Block>, xy0: array<Block>, xy1: array<Block>) returns (ok: bool)
    requires m0 != m1 && Correlated(m0, m1)
    requires xy0 != xy1 && y0 != xy1 && y1 != xy0
    requires |x0| == |x1| == y0.Length == y1.Length == xy0.Length == xy1.Length
    modifies m0`otIdx, m1`otIdx, xy0, xy1
    ensures ok == (old(m0.otIdx) + |x0| <= m0.totalMults && m0.totalMults > 0)
    ensures !ok ==> unchanged(m0, m1, xy0, xy1)
    ensures ok ==> Correlated(m0, m1) && m0.otIdx == old(m0.otIdx) + |x0|
    ensures ok ==> ShareProducts(x0, x1, old(y0[..]), old(y1[..]), xy0[..], xy1[..])
  {
    var r0 := m0.Begin(x0, y0, xy0.Length);
    var r1 := m1.Begin(x1, y1, xy1.Length);
    if r0.Failed? || r1.Failed? {
      return false;
    }
    var f0, f1 := r0.frame, r1.frame;
    ghost var o0, o1, u0, u1 := m0.Ots(|x0|), m1.Ots(|x1|), y0[..], y1[..];
    CorrelatedWindow(m0, m1, |x0|);
    var ok0 := m0.Finish(f0, f1.mine, xy0);
    ghost var shares0 := xy0[..];
    var ok1 := m1.Finish(f1, f0.mine, xy1);
    assert xy0[..] == shares0;
    ok := ok0 && ok1;
    ExchangeSharesProducts(f0, f1, o0, o1, x0, x1, u0, u1, shares0, xy1[..]);
  }
}
