/** Straight-line programs over shares, run by three parties over FIFO channels, online or from tapes. */
module MpcProgram {
  import opened Words
  import opened Ring64
  import opened Fifo
  import opened Rounds
  import opened Mpc
  import opened MpcDot
  import opened MpcTape
  import opened MpcSupply
  import opened MpcZero

  /** Each operation appends its result to the memory; operands are earlier positions. */
  datatype Op =
    | AddOp(i: nat, j: nat)
    | XorOp(i: nat, j: nat)
    | MulOp(i: nat, j: nat)
    | AndOp(i: nat, j: nat)
    | OrOp(i: nat, j: nat)
    | DotOp(xs: seq<nat>, ys: seq<nat>)
    | EqzOp(i: nat)

  type Mem = seq<Value>

  predicate IsA(mem: Mem, i: nat) {
    i < |mem| && mem[i].A?
  }

  predicate IsX(mem: Mem, i: nat) {
    i < |mem| && mem[i].X?
  }

  predicate AllA(mem: Mem, idx: seq<nat>) {
    forall c :: 0 <= c < |idx| ==> IsA(mem, idx[c])
  }

  /** Operands exist and are of the right sharing. */
  predicate Typed(op: Op, mem: Mem) {
    match op
    case AddOp(i, j) => IsA(mem, i) && IsA(mem, j)
    case XorOp(i, j) => IsX(mem, i) && IsX(mem, j)
    case MulOp(i, j) => IsA(mem, i) && IsA(mem, j)
    case AndOp(i, j) => IsX(mem, i) && IsX(mem, j)
    case OrOp(i, j) => IsX(mem, i) && IsX(mem, j)
    case DotOp(xs, ys) => |xs| == |ys| && AllA(mem, xs) && AllA(mem, ys)
    case EqzOp(i) => IsA(mem, i)
  }

  function Pick(mem: Mem, idx: seq<nat>): (r: seq<U64>)
    requires AllA(mem, idx)
    ensures |r| == |idx| && forall c :: 0 <= c < |idx| ==> IsA(mem, idx[c]) && r[c] == mem[idx[c]].n
  {
    seq<U64>(|idx|, c requires 0 <= c < |idx| => assert IsA(mem, idx[c]); mem[idx[c]].n)
  }

  /** What an operation computes in the clear. `mpc_eqz` computes "not zero". */
  function Plain(op: Op, mem: Mem): (r: Value)
    requires Typed(op, mem)
    ensures op.AddOp? ==> r == A((mem[op.i].n + mem[op.j].n) % 0x1_0000_0000_0000_0000)
    ensures op.XorOp? ==> r.X? && forall b :: 0 <= b < 64 ==> r.w[b] == (mem[op.i].w[b] != mem[op.j].w[b])
    ensures op.MulOp? ==> r == A(mem[op.i].n * mem[op.j].n % 0x1_0000_0000_0000_0000)
    ensures op.AndOp? ==> r.X? && forall b :: 0 <= b < 64 ==> r.w[b] == (mem[op.i].w[b] && mem[op.j].w[b])
    ensures op.OrOp? ==> r.X? && forall b :: 0 <= b < 64 ==> r.w[b] == (mem[op.i].w[b] || mem[op.j].w[b])
    ensures op.DotOp? ==> r == A(SumOfProducts(Pick(mem, op.xs), Pick(mem, op.ys)) % 0x1_0000_0000_0000_0000)
    ensures op.EqzOp? ==> r.X? && forall b :: 0 <= b < 64 ==> r.w[b] == (b == 0 && mem[op.i].n != 0)
  {
    match op
    case AddOp(i, j) => A(Add(mem[i].n, mem[j].n))
    case XorOp(i, j) => X(XorWord(mem[i].w, mem[j].w))
    case MulOp(i, j) => A(Mul(mem[i].n, mem[j].n))
    case AndOp(i, j) => X(AndWord(mem[i].w, mem[j].w))
    case OrOp(i, j) => X(OrWord(mem[i].w, mem[j].w))
    case DotOp(xs, ys) =>
      DotIsSum(Pick(mem, xs), Pick(mem, ys));
      A(Dot(Pick(mem, xs), Pick(mem, ys)))
    case EqzOp(i) => X(BitWord(mem[i].n != 0))
  }

  predicate WellTyped(prog: seq<Op>, mem: Mem) {
    prog == [] || (Typed(prog[0], mem) && WellTyped(prog[1..], mem + [Plain(prog[0], mem)]))
  }

  function PlainRun(prog: seq<Op>, mem: Mem): Mem
    requires WellTyped(prog, mem)
  {
    if prog == [] then mem else PlainRun(prog[1..], mem + [Plain(prog[0], mem)])
  }

  /** One operation at one party; `k` gets the party's share of the result, the next tag and what is left of its supply. */
  function OpProc(role: nat, op: Op, mem: Mem, tag: nat, rnd: Rand, s: Supply, k: Next): Coroutine {
    if !Typed(op, mem) then Fault
    else match op
      case AddOp(i, j) => k(A(Add(mem[i].n, mem[j].n)), tag, s)
      case XorOp(i, j) => k(X(XorWord(mem[i].w, mem[j].w)), tag, s)
      case MulOp(i, j) => MulFrom(role, tag, mem[i].n, mem[j].n, rnd, s, (z: U64, s': Supply) => k(A(z), tag + 1, s'))
      case AndOp(i, j) => AndFrom(role, tag, mem[i].w, mem[j].w, rnd, s, (z: Word, s': Supply) => k(X(z), tag + 1, s'))
      case OrOp(i, j) => OrFrom(role, tag, mem[i].w, mem[j].w, rnd, s, (z: Word, s': Supply) => k(X(z), tag + 1, s'))
      case DotOp(xs, ys) => DotProc(role, tag, Pick(mem, xs), Pick(mem, ys), rnd, (z: U64) => k(A(z), tag + 1, s))
      case EqzOp(i) => EqzProc(role, tag, mem[i].n, rnd, s, (z: Word, t: nat, s': Supply) => k(X(z), t, s'))
  }

  type Next = (Value, nat, Supply) -> Coroutine

  function RunProc(role: nat, prog: seq<Op>, mem: Mem, tag: nat, rnd: Rand, s: Supply): Coroutine
    decreases |prog|
  {
    if prog == [] then Done(mem)
    else OpProc(role, prog[0], mem, tag, rnd, s, (v: Value, t: nat, s': Supply) => RunProc(role, prog[1..], mem + [v], t, rnd, s'))
  }

  /** The recorded products and conjunctions that an operation uses. A zero test makes 63 disjunctions; a dot product is always online. */
  function MulUses(op: Op): nat {
    if op.MulOp? then 1 else 0
  }

  function AndUses(op: Op): nat {
    if op.AndOp? || op.OrOp? then 1 else if op.EqzOp? then 63 else 0
  }

  function MulCount(prog: seq<Op>): nat {
    if prog == [] then 0 else MulUses(prog[0]) + MulCount(prog[1..])
  }

  function AndCount(prog: seq<Op>): nat {
    if prog == [] then 0 else AndUses(prog[0]) + AndCount(prog[1..])
  }

  predicate SameKinds(m0: Mem, m1: Mem) {
    |m0| == |m1| && forall i :: 0 <= i < |m0| ==> m0[i].A? == m1[i].A?
  }

  function Join(a: Value, b: Value): Value
    requires a.A? == b.A?
  {
    if a.A? then A(Add(a.n, b.n)) else X(XorWord(a.w, b.w))
  }

  /** The memory that the workers' memories share. */
  function Joined(m0: Mem, m1: Mem): (r: Mem)
    requires SameKinds(m0, m1)
    ensures |r| == |m0|
  {
    seq(|m0|, i requires 0 <= i < |m0| => Join(m0[i], m1[i]))
  }

  lemma KindsOfJoined(m0: Mem, m1: Mem)
    requires SameKinds(m0, m1)
    ensures SameKinds(Joined(m0, m1), m0) && SameKinds(Joined(m0, m1), m1)
  {
  }

  lemma TypedByKinds(op: Op, m: Mem, m': Mem)
    requires SameKinds(m, m') && Typed(op, m)
    ensures Typed(op, m')
  {
    if op.DotOp? {
      forall c | 0 <= c < |op.xs| ensures IsA(m', op.xs[c]) && IsA(m', op.ys[c]) {
        assert IsA(m, op.xs[c]) && IsA(m, op.ys[c]);
      }
    }
  }

  lemma PickJoined(m0: Mem, m1: Mem, idx: seq<nat>)
    requires SameKinds(m0, m1) && AllA(m0, idx) && AllA(m1, idx) && AllA(Joined(m0, m1), idx)
    ensures Pick(Joined(m0, m1), idx) == AddAll(Pick(m0, idx), Pick(m1, idx))
  {
    forall c | 0 <= c < |idx| ensures Pick(Joined(m0, m1), idx)[c] == AddAll(Pick(m0, idx), Pick(m1, idx))[c] {
      assert IsA(m0, idx[c]) && IsA(m1, idx[c]);
    }
  }

  function OpTrio(op: Op, m0: Mem, m1: Mem, m2: Mem, tag: nat, rnd: Rand, st: Store, k0: Next, k1: Next, k2: Next): State<Msg, Mem> {
    Trio(OpProc(0, op, m0, tag, rnd, SupplyOf(st, 0), k0), OpProc(1, op, m1, tag, rnd, SupplyOf(st, 1), k1), OpProc(2, op, m2, tag, rnd, SupplyOf(st, 2), k2))
  }

  /** The parties go on with their results, with tag `t` and the supplies `u`. */
  function ValuesNext(t: nat, u: Store, k0: Next, k1: Next, k2: Next, v0: Value, v1: Value, v2: Value): State<Msg, Mem> {
    Trio(k0(v0, t, SupplyOf(u, 0)), k1(v1, t, SupplyOf(u, 1)), k2(v2, t, SupplyOf(u, 2)))
  }

  /** The three memories have the same sharings, and the operation is typed in all of them. */
  predicate Ready(op: Op, m0: Mem, m1: Mem, m2: Mem) {
    SameKinds(m0, m1) && SameKinds(m0, m2) && Typed(op, m0) && Typed(op, m1) && Typed(op, m2) && Typed(op, Joined(m0, m1))
  }

  /** The workers' results share the plain result. */
  predicate OpDone(op: Op, m0: Mem, m1: Mem, v0: Value, v1: Value, v2: Value) {
    && SameKinds(m0, m1) && Typed(op, Joined(m0, m1)) && v0.A? == v1.A? == v2.A?
    && Join(v0, v1) == Plain(op, Joined(m0, m1))
  }

  lemma LocalRun(op: Op, m0: Mem, m1: Mem, m2: Mem, tag: nat, rnd: Rand, st: Store, u: Store, k0: Next, k1: Next, k2: Next)
    returns (v0: Value, v1: Value, v2: Value, t: nat)
    requires (op.AddOp? || op.XorOp?) && Ready(op, m0, m1, m2) && Lasts(st, MulUses(op), AndUses(op)) && u == Used(st, MulUses(op), AndUses(op))
    ensures OpDone(op, m0, m1, v0, v1, v2)
    ensures Leads(OpTrio(op, m0, m1, m2, tag, rnd, st, k0, k1, k2), ValuesNext(t, u, k0, k1, k2, v0, v1, v2))
  {
    var i, j := op.i, op.j;
    t := tag;
    assert u == st;
    if op.AddOp? {
      v0, v1, v2 := A(Add(m0[i].n, m0[j].n)), A(Add(m1[i].n, m1[j].n)), A(Add(m2[i].n, m2[j].n));
      AddSwap(m0[i].n, m0[j].n, m1[i].n, m1[j].n);
    } else {
      v0, v1, v2 := X(XorWord(m0[i].w, m0[j].w)), X(XorWord(m1[i].w, m1[j].w)), X(XorWord(m2[i].w, m2[j].w));
      XorWordSwap(m0[i].w, m0[j].w, m1[i].w, m1[j].w);
    }
    LeadsSelf(OpTrio(op, m0, m1, m2, tag, rnd, st, k0, k1, k2));
  }

  lemma MulOpRun(op: Op, m0: Mem, m1: Mem, m2: Mem, tag: nat, rnd: Rand, st: Store, u: Store, k0: Next, k1: Next, k2: Next)
    returns (v0: Value, v1: Value, v2: Value, t: nat)
    requires op.MulOp? && Ready(op, m0, m1, m2) && Lasts(st, MulUses(op), AndUses(op)) && u == Used(st, MulUses(op), AndUses(op))
    ensures OpDone(op, m0, m1, v0, v1, v2)
    ensures Leads(OpTrio(op, m0, m1, m2, tag, rnd, st, k0, k1, k2), ValuesNext(t, u, k0, k1, k2, v0, v1, v2))
  {
    t := tag + 1;
    var z0, z1 := MulFromRun(tag, m0[op.i].n, m0[op.j].n, m1[op.i].n, m1[op.j].n, m2[op.i].n, m2[op.j].n, rnd, st,
      (z: U64, s: Supply) => k0(A(z), tag + 1, s), (z: U64, s: Supply) => k1(A(z), tag + 1, s), (z: U64, s: Supply) => k2(A(z), tag + 1, s));
    v0, v1, v2 := A(z0), A(z1), A(0);
  }

  lemma AndOpRun(op: Op, m0: Mem, m1: Mem, m2: Mem, tag: nat, rnd: Rand, st: Store, u: Store, k0: Next, k1: Next, k2: Next)
    returns (v0: Value, v1: Value, v2: Value, t: nat)
    requires op.AndOp? && Ready(op, m0, m1, m2) && Lasts(st, MulUses(op), AndUses(op)) && u == Used(st, MulUses(op), AndUses(op))
    ensures OpDone(op, m0, m1, v0, v1, v2)
    ensures Leads(OpTrio(op, m0, m1, m2, tag, rnd, st, k0, k1, k2), ValuesNext(t, u, k0, k1, k2, v0, v1, v2))
  {
    t := tag + 1;
    var x0, y0, x1, y1 := m0[op.i].w, m0[op.j].w, m1[op.i].w, m1[op.j].w;
    var d := AndFromRun(tag, x0, y0, x1, y1, m2[op.i].w, m2[op.j].w, rnd, st,
      (z: Word, s: Supply) => k0(X(z), tag + 1, s), (z: Word, s: Supply) => k1(X(z), tag + 1, s), (z: Word, s: Supply) => k2(X(z), tag + 1, s));
    v0, v1, v2 := X(AndResult(0, d, x0, y0, x1, y1)), X(AndResult(1, d, x0, y0, x1, y1)), X(ZeroWord());
    AndResultShares(d, x0, y0, x1, y1);
  }

  lemma OrOpRun(op: Op, m0: Mem, m1: Mem, m2: Mem, tag: nat, rnd: Rand, st: Store, u: Store, k0: Next, k1: Next, k2: Next)
    returns (v0: Value, v1: Value, v2: Value, t: nat)
    requires op.OrOp? && Ready(op, m0, m1, m2) && Lasts(st, MulUses(op), AndUses(op)) && u == Used(st, MulUses(op), AndUses(op))
    ensures OpDone(op, m0, m1, v0, v1, v2)
    ensures Leads(OpTrio(op, m0, m1, m2, tag, rnd, st, k0, k1, k2), ValuesNext(t, u, k0, k1, k2, v0, v1, v2))
  {
    t := tag + 1;
    var z0, z1, z2 := OrFromRun(tag, m0[op.i].w, m0[op.j].w, m1[op.i].w, m1[op.j].w, m2[op.i].w, m2[op.j].w, rnd, st,
      (z: Word, s: Supply) => k0(X(z), tag + 1, s), (z: Word, s: Supply) => k1(X(z), tag + 1, s), (z: Word, s: Supply) => k2(X(z), tag + 1, s));
    v0, v1, v2 := X(z0), X(z1), X(z2);
  }

  lemma DotOpRun(op: Op, m0: Mem, m1: Mem, m2: Mem, tag: nat, rnd: Rand, st: Store, u: Store, k0: Next, k1: Next, k2: Next)
    returns (v0: Value, v1: Value, v2: Value, t: nat)
    requires op.DotOp? && Ready(op, m0, m1, m2) && Lasts(st, MulUses(op), AndUses(op)) && u == Used(st, MulUses(op), AndUses(op))
    ensures OpDone(op, m0, m1, v0, v1, v2)
    ensures Leads(OpTrio(op, m0, m1, m2, tag, rnd, st, k0, k1, k2), ValuesNext(t, u, k0, k1, k2, v0, v1, v2))
  {
    var x0, y0, x1, y1, d := Pick(m0, op.xs), Pick(m0, op.ys), Pick(m1, op.xs), Pick(m1, op.ys), DotDraws(rnd, tag);
    v0, v1, v2, t := A(DotResult(0, rnd, d, x0, y0, x1, y1)), A(DotResult(1, rnd, d, x0, y0, x1, y1)), A(0), tag + 1;
    assert u == st;
    DotResultShares(rnd, d, x0, y0, x1, y1);
    PickJoined(m0, m1, op.xs);
    PickJoined(m0, m1, op.ys);
    DotRun(tag, x0, y0, x1, y1, Pick(m2, op.xs), Pick(m2, op.ys), rnd,
           (z: U64) => k0(A(z), tag + 1, SupplyOf(st, 0)), (z: U64) => k1(A(z), tag + 1, SupplyOf(st, 1)), (z: U64) => k2(A(z), tag + 1, SupplyOf(st, 2)));
  }

  lemma EqzOpRun(op: Op, m0: Mem, m1: Mem, m2: Mem, tag: nat, rnd: Rand, st: Store, u: Store, k0: Next, k1: Next, k2: Next)
    returns (v0: Value, v1: Value, v2: Value, t: nat)
    requires op.EqzOp? && Ready(op, m0, m1, m2) && Lasts(st, MulUses(op), AndUses(op)) && u == Used(st, MulUses(op), AndUses(op))
    ensures OpDone(op, m0, m1, v0, v1, v2)
    ensures Leads(OpTrio(op, m0, m1, m2, tag, rnd, st, k0, k1, k2), ValuesNext(t, u, k0, k1, k2, v0, v1, v2))
  {
    t := tag + 64;
    var z0, z1, z2 := EqzRun(tag, m0[op.i].n, m1[op.i].n, m2[op.i].n, rnd, st,
      (z: Word, t': nat, s: Supply) => k0(X(z), t', s), (z: Word, t': nat, s: Supply) => k1(X(z), t', s),
      (z: Word, t': nat, s: Supply) => k2(X(z), t', s), t, u);
    v0, v1, v2 := X(z0), X(z1), X(z2);
  }

  /** Every operation in either mode: shares of its plain result, and exactly its uses of the supplies. */
  lemma OpRun(op: Op, m0: Mem, m1: Mem, m2: Mem, tag: nat, rnd: Rand, st: Store, u: Store, k0: Next, k1: Next, k2: Next)
    returns (v0: Value, v1: Value, v2: Value, t: nat)
    requires Ready(op, m0, m1, m2) && Lasts(st, MulUses(op), AndUses(op)) && u == Used(st, MulUses(op), AndUses(op))
    ensures OpDone(op, m0, m1, v0, v1, v2)
    ensures Leads(OpTrio(op, m0, m1, m2, tag, rnd, st, k0, k1, k2), ValuesNext(t, u, k0, k1, k2, v0, v1, v2))
  {
    match op
    case AddOp(_, _) => v0, v1, v2, t := LocalRun(op, m0, m1, m2, tag, rnd, st, u, k0, k1, k2);
    case XorOp(_, _) => v0, v1, v2, t := LocalRun(op, m0, m1, m2, tag, rnd, st, u, k0, k1, k2);
    case MulOp(_, _) => v0, v1, v2, t := MulOpRun(op, m0, m1, m2, tag, rnd, st, u, k0, k1, k2);
    case AndOp(_, _) => v0, v1, v2, t := AndOpRun(op, m0, m1, m2, tag, rnd, st, u, k0, k1, k2);
    case OrOp(_, _) => v0, v1, v2, t := OrOpRun(op, m0, m1, m2, tag, rnd, st, u, k0, k1, k2);
    case DotOp(_, _) => v0, v1, v2, t := DotOpRun(op, m0, m1, m2, tag, rnd, st, u, k0, k1, k2);
    case EqzOp(_) => v0, v1, v2, t := EqzOpRun(op, m0, m1, m2, tag, rnd, st, u, k0, k1, k2);
  }

  lemma ReadyFor(op: Op, m0: Mem, m1: Mem, m2: Mem)
    requires SameKinds(m0, m1) && SameKinds(m0, m2) && Typed(op, Joined(m0, m1))
    ensures Ready(op, m0, m1, m2)
  {
    KindsOfJoined(m0, m1);
    TypedByKinds(op, Joined(m0, m1), m0);
    TypedByKinds(op, m0, m1);
    TypedByKinds(op, m0, m2);
  }

  lemma JoinedPush(m0: Mem, m1: Mem, m2: Mem, v0: Value, v1: Value, v2: Value)
    requires SameKinds(m0, m1) && SameKinds(m0, m2) && v0.A? == v1.A? == v2.A?
    ensures SameKinds(m0 + [v0], m1 + [v1]) && SameKinds(m0 + [v0], m2 + [v2])
    ensures Joined(m0 + [v0], m1 + [v1]) == Joined(m0, m1) + [Join(v0, v1)]
  {
  }

  function RunTrio(prog: seq<Op>, m0: Mem, m1: Mem, m2: Mem, tag: nat, rnd: Rand, st: Store): State<Msg, Mem> {
    Trio(RunProc(0, prog, m0, tag, rnd, SupplyOf(st, 0)), RunProc(1, prog, m1, tag, rnd, SupplyOf(st, 1)), RunProc(2, prog, m2, tag, rnd, SupplyOf(st, 2)))
  }

  /** A typed program on memories of the same sharings, for which the supplies last. */
  predicate Covered(prog: seq<Op>, m0: Mem, m1: Mem, m2: Mem, st: Store) {
    && SameKinds(m0, m1) && SameKinds(m0, m2) && WellTyped(prog, Joined(m0, m1))
    && Lasts(st, MulCount(prog), AndCount(prog))
  }

  predicate Shares(prog: seq<Op>, m0: Mem, m1: Mem, f0: Mem, f1: Mem) {
    && SameKinds(m0, m1) && SameKinds(f0, f1) && WellTyped(prog, Joined(m0, m1))
    && Joined(f0, f1) == PlainRun(prog, Joined(m0, m1))
  }

  lemma RunOp(prog: seq<Op>, m0: Mem, m1: Mem, m2: Mem, tag: nat, rnd: Rand, st: Store, u: Store)
    returns (v0: Value, v1: Value, v2: Value, t: nat)
    requires prog != [] && Ready(prog[0], m0, m1, m2) && Lasts(st, MulUses(prog[0]), AndUses(prog[0])) && u == Used(st, MulUses(prog[0]), AndUses(prog[0]))
    ensures OpDone(prog[0], m0, m1, v0, v1, v2)
    ensures Leads(RunTrio(prog, m0, m1, m2, tag, rnd, st), RunTrio(prog[1..], m0 + [v0], m1 + [v1], m2 + [v2], t, rnd, u))
  {
    v0, v1, v2, t := OpRun(prog[0], m0, m1, m2, tag, rnd, st, u,
      (v: Value, t': nat, s: Supply) => RunProc(0, prog[1..], m0 + [v], t', rnd, s),
      (v: Value, t': nat, s: Supply) => RunProc(1, prog[1..], m1 + [v], t', rnd, s),
      (v: Value, t': nat, s: Supply) => RunProc(2, prog[1..], m2 + [v], t', rnd, s));
  }

  lemma CoveredStep(prog: seq<Op>, m0: Mem, m1: Mem, m2: Mem, st: Store, v0: Value, v1: Value, v2: Value)
    requires prog != [] && Covered(prog, m0, m1, m2, st) && OpDone(prog[0], m0, m1, v0, v1, v2)
    ensures Covered(prog[1..], m0 + [v0], m1 + [v1], m2 + [v2], Used(st, MulUses(prog[0]), AndUses(prog[0])))
  {
    JoinedPush(m0, m1, m2, v0, v1, v2);
  }

  /** Some schedule takes every program to its end, with shares of what it computes in the clear. */
  lemma {:induction false} ProgramRun(prog: seq<Op>, m0: Mem, m1: Mem, m2: Mem, tag: nat, rnd: Rand, st: Store)
    returns (f0: Mem, f1: Mem, f2: Mem)
    requires Covered(prog, m0, m1, m2, st)
    ensures Shares(prog, m0, m1, f0, f1)
    ensures Leads(RunTrio(prog, m0, m1, m2, tag, rnd, st), Trio(Done(f0), Done(f1), Done(f2)))
    decreases |prog|
  {
    if prog == [] {
      f0, f1, f2 := m0, m1, m2;
      LeadsSelf(RunTrio(prog, m0, m1, m2, tag, rnd, st));
    } else {
      ReadyFor(prog[0], m0, m1, m2);
      var u := Used(st, MulUses(prog[0]), AndUses(prog[0]));
      var v0, v1, v2, t := RunOp(prog, m0, m1, m2, tag, rnd, st, u);
      CoveredStep(prog, m0, m1, m2, st, v0, v1, v2);
      f0, f1, f2 := ProgramRun(prog[1..], m0 + [v0], m1 + [v1], m2 + [v2], t, rnd, u);
      JoinedPush(m0, m1, m2, v0, v1, v2);
      LeadsJoin(RunTrio(prog, m0, m1, m2, tag, rnd, st), RunTrio(prog[1..], m0 + [v0], m1 + [v1], m2 + [v2], t, rnd, u), Trio(Done(f0), Done(f1), Done(f2)));
    }
  }

  /** A final state in which the workers hold shares of the plain result. */
  ghost predicate Outcome(prog: seq<Op>, m0: Mem, m1: Mem, f: State<Msg, Mem>) {
    Final(f) && Shares(prog, m0, m1, f.procs[0].result, f.procs[1].result)
  }

  lemma DoneOutcome(prog: seq<Op>, m0: Mem, m1: Mem, f0: Mem, f1: Mem, f2: Mem)
    requires Shares(prog, m0, m1, f0, f1)
    ensures Outcome(prog, m0, m1, Trio<Msg, Mem>(Done(f0), Done(f1), Done(f2)))
  {
  }

  /**
   The run theorem: for every program, every sharing of its inputs, every choice of the dealer, and material that
   lasts, there is one outcome, with shares of the plain result and empty channels, that every schedule of sends
   and receives reaches, after the same number of steps. On the way no party takes a message of another operation,
   no replayed entry is out of sync, and no party is blocked for good.
   */
  lemma EverySchedule(prog: seq<Op>, m0: Mem, m1: Mem, m2: Mem, tag: nat, rnd: Rand, st: Store)
    returns (f: State<Msg, Mem>, n: nat)
    requires Covered(prog, m0, m1, m2, st)
    ensures Outcome(prog, m0, m1, f)
    ensures forall sched, t :: Runs(RunTrio(prog, m0, m1, m2, tag, rnd, st), sched, t) ==> OnCourse(sched, t, f, n)
    ensures exists sched :: Runs(RunTrio(prog, m0, m1, m2, tag, rnd, st), sched, f)
  {
    var f0, f1, f2 := ProgramRun(prog, m0, m1, m2, tag, rnd, st);
    f := Trio(Done(f0), Done(f1), Done(f2));
    DoneOutcome(prog, m0, m1, f0, f1, f2);
    n := AllOnCourse(RunTrio(prog, m0, m1, m2, tag, rnd, st), f);
  }

  /** The values in the clear: inputs first, then one result after the other, each of the values before it. */
  lemma {:induction false} PlainEntries(prog: seq<Op>, mem: Mem, k: nat)
    requires WellTyped(prog, mem) && k < |prog|
    ensures var v := PlainRun(prog, mem);
            && |v| == |mem| + |prog| && v[..|mem|] == mem
            && Typed(prog[k], v[..|mem| + k]) && v[|mem| + k] == Plain(prog[k], v[..|mem| + k])
    decreases |prog|
  {
    PlainSize(prog, mem);
    if k > 0 {
      PlainEntries(prog[1..], mem + [Plain(prog[0], mem)], k - 1);
    } else {
      PlainSize(prog[1..], mem + [Plain(prog[0], mem)]);
      var v := PlainRun(prog, mem);
      assert v[..|mem| + 1] == mem + [Plain(prog[0], mem)];
      assert v[..|mem|] == mem;
    }
  }

  lemma {:induction false} PlainSize(prog: seq<Op>, mem: Mem)
    requires WellTyped(prog, mem)
    ensures |PlainRun(prog, mem)| == |mem| + |prog| && PlainRun(prog, mem)[..|mem|] == mem
    decreases |prog|
  {
    if prog != [] {
      var mem' := mem + [Plain(prog[0], mem)];
      PlainSize(prog[1..], mem');
      assert PlainRun(prog, mem)[..|mem'|][..|mem|] == mem;
    }
  }

  /** Entry `p` is the result of `op` on entries before it: arithmetic modulo 2^64, logic bit by bit. */
  predicate ResultOf(op: Op, v: Mem, p: nat)
    requires p < |v|
  {
    Typed(op, v[..p]) &&
    match op
    case AddOp(i, j) => v[p] == A((v[i].n + v[j].n) % 0x1_0000_0000_0000_0000)
    case XorOp(i, j) => v[p].X? && forall b :: 0 <= b < 64 ==> v[p].w[b] == (v[i].w[b] != v[j].w[b])
    case MulOp(i, j) => v[p] == A(v[i].n * v[j].n % 0x1_0000_0000_0000_0000)
    case AndOp(i, j) => v[p].X? && forall b :: 0 <= b < 64 ==> v[p].w[b] == (v[i].w[b] && v[j].w[b])
    case OrOp(i, j) => v[p].X? && forall b :: 0 <= b < 64 ==> v[p].w[b] == (v[i].w[b] || v[j].w[b])
    case DotOp(xs, ys) => v[p] == A(SumOfProducts(Pick(v[..p], xs), Pick(v[..p], ys)) % 0x1_0000_0000_0000_0000)
    case EqzOp(i) => v[p].X? && forall b :: 0 <= b < 64 ==> v[p].w[b] == (b == 0 && v[i].n != 0)
  }

  /** `v` is what `f0` and `f1` share: sums modulo 2^64, or XOR bit by bit. */
  predicate SharedBy(v: Mem, f0: Mem, f1: Mem) {
    && |f0| == |f1| == |v|
    && forall p :: 0 <= p < |v| ==>
         && f0[p].A? == f1[p].A? == v[p].A?
         && if v[p].A? then v[p].n == (f0[p].n + f1[p].n) % 0x1_0000_0000_0000_0000
            else forall b :: 0 <= b < 64 ==> v[p].w[b] == (f0[p].w[b] != f1[p].w[b])
  }

  lemma JoinedIsShared(m0: Mem, m1: Mem)
    requires SameKinds(m0, m1)
    ensures SharedBy(Joined(m0, m1), m0, m1)
  {
  }

  lemma PlainResults(prog: seq<Op>, mem: Mem)
    requires WellTyped(prog, mem)
    ensures |PlainRun(prog, mem)| == |mem| + |prog| && PlainRun(prog, mem)[..|mem|] == mem
    ensures forall k :: 0 <= k < |prog| ==> ResultOf(prog[k], PlainRun(prog, mem), |mem| + k)
  {
    PlainSize(prog, mem);
    forall k | 0 <= k < |prog| ensures ResultOf(prog[k], PlainRun(prog, mem), |mem| + k) {
      PlainEntries(prog, mem, k);
    }
  }

  /** `v` holds the shared inputs and then the results of the program, and the final memories `f0`, `f1` share it. */
  predicate Computed(prog: seq<Op>, m0: Mem, m1: Mem, v: Mem, f0: Mem, f1: Mem) {
    && |v| == |m0| + |prog| && SharedBy(v[..|m0|], m0, m1) && SharedBy(v, f0, f1)
    && forall k :: 0 <= k < |prog| ==> ResultOf(prog[k], v, |m0| + k)
  }

  lemma OutcomeComputed(prog: seq<Op>, m0: Mem, m1: Mem, f: State<Msg, Mem>) returns (v: Mem)
    requires Outcome(prog, m0, m1, f)
    ensures Final(f) && Computed(prog, m0, m1, v, f.procs[0].result, f.procs[1].result)
  {
    v := PlainRun(prog, Joined(m0, m1));
    JoinedIsShared(m0, m1);
    JoinedIsShared(f.procs[0].result, f.procs[1].result);
    PlainResults(prog, Joined(m0, m1));
  }

  /**
   The run theorem, result by result: every schedule ends with shares of one list of values, the shared inputs
   followed by one value per operation, and each of those is the sum, product, inner product, conjunction,
   disjunction, XOR or zero test of the earlier values that its operation names.
   */
  lemma EveryResult(prog: seq<Op>, m0: Mem, m1: Mem, m2: Mem, tag: nat, rnd: Rand, st: Store)
    returns (v: Mem, f: State<Msg, Mem>, n: nat)
    requires Covered(prog, m0, m1, m2, st)
    ensures Outcome(prog, m0, m1, f) && Computed(prog, m0, m1, v, f.procs[0].result, f.procs[1].result)
    ensures forall sched, t :: Runs(RunTrio(prog, m0, m1, m2, tag, rnd, st), sched, t) ==> OnCourse(sched, t, f, n)
  {
    f, n := EverySchedule(prog, m0, m1, m2, tag, rnd, st);
    v := OutcomeComputed(prog, m0, m1, f);
  }

  /** Online there is no limit on the program. */
  lemma EveryOnlineSchedule(prog: seq<Op>, m0: Mem, m1: Mem, m2: Mem, tag: nat, rnd: Rand)
    returns (f: State<Msg, Mem>, n: nat, v: Mem)
    requires SameKinds(m0, m1) && SameKinds(m0, m2) && WellTyped(prog, Joined(m0, m1))
    ensures Outcome(prog, m0, m1, f) && Computed(prog, m0, m1, v, f.procs[0].result, f.procs[1].result)
    ensures forall sched, t :: Runs(RunTrio(prog, m0, m1, m2, tag, rnd, Online), sched, t) ==> OnCourse(sched, t, f, n)
  {
    v, f, n := EveryResult(prog, m0, m1, m2, tag, rnd, Online);
  }

  // ---------------------------------------------------------------- replay

  /** The three parties at the start of a replay whose workers' counters are `(c, e)`. */
  function ReplayTrio(prog: seq<Op>, m0: Mem, m1: Mem, m2: Mem, tag: nat, rnd: Rand, rec: Recording, c: U64, e: U64): State<Msg, Mem> {
    Trio(RunProc(0, prog, m0, tag, rnd, Taped(DeckAt(rec, 0, 0, 0).(mulCtr := c, andCtr := e))),
         RunProc(1, prog, m1, tag, rnd, Taped(DeckAt(rec, 1, 0, 0).(mulCtr := c, andCtr := e))), RunProc(2, prog, m2, tag, rnd, Spared))
  }

  /**
   Replaying a recording with equal counters: for every program that needs no more material than was recorded,
   every schedule ends with shares of the plain result, and no party ever faults, so the desync check never fires.
   */
  lemma EveryReplay(prog: seq<Op>, m0: Mem, m1: Mem, m2: Mem, tag: nat, rnd: Rand, rec: Recording, c: U64, e: U64)
    returns (f: State<Msg, Mem>, n: nat, v: Mem)
    requires Covered(prog, m0, m1, m2, Tapes(rec, 0, 0)) && c == rec.mulStart && e == rec.andStart
    ensures Outcome(prog, m0, m1, f) && Computed(prog, m0, m1, v, f.procs[0].result, f.procs[1].result)
    ensures forall sched, t :: Runs(ReplayTrio(prog, m0, m1, m2, tag, rnd, rec, c, e), sched, t) ==> OnCourse(sched, t, f, n)
  {
    StartDeck(rec, 0);
    StartDeck(rec, 1);
    v, f, n := EveryResult(prog, m0, m1, m2, tag, rnd, Tapes(rec, 0, 0));
  }

  /** Additions and XORs, up to the first operation that needs material. */
  predicate Local(op: Op) {
    op.AddOp? || op.XorOp?
  }

  /**
   With unequal counters the first replayed product faults at once: the check compares the first recorded index
   with the counter. With equal ones it does not. Only local operations may come before it.
   */
  lemma {:induction false} FirstProduct(role: nat, prog: seq<Op>, rest: seq<Op>, op: Op, mem: Mem, tag: nat, rnd: Rand, rec: Recording, c: U64, e: U64)
    requires role < 2 && rec.muls != [] && op.MulOp? && forall i :: 0 <= i < |prog| ==> Local(prog[i])
    requires WellTyped(prog + [op] + rest, mem)
    ensures RunProc(role, prog + [op] + rest, mem, tag, rnd, Taped(DeckAt(rec, role, 0, 0).(mulCtr := c, andCtr := e))) == Fault
       <==> c != rec.mulStart
    decreases |prog|
  {
    var all, deck := prog + [op] + rest, DeckAt(rec, role, 0, 0).(mulCtr := c, andCtr := e);
    if prog == [] {
      assert all[0] == op;
      MulStartDecides(rec, role, c);
      assert MulInSync(deck) == MulInSync(DeckAt(rec, role, 0, 0).(mulCtr := c));
    } else {
      assert all[0] == prog[0] && all[1..] == prog[1..] + [op] + rest;
      FirstProduct(role, prog[1..], rest, op, mem + [Plain(prog[0], mem)], tag, rnd, rec, c, e);
    }
  }

  lemma {:induction false} FirstConjunction(role: nat, prog: seq<Op>, rest: seq<Op>, op: Op, mem: Mem, tag: nat, rnd: Rand, rec: Recording, c: U64, e: U64)
    requires role < 2 && rec.ands != [] && (op.AndOp? || op.OrOp?) && forall i :: 0 <= i < |prog| ==> Local(prog[i])
    requires WellTyped(prog + [op] + rest, mem)
    ensures RunProc(role, prog + [op] + rest, mem, tag, rnd, Taped(DeckAt(rec, role, 0, 0).(mulCtr := c, andCtr := e))) == Fault
       <==> e != rec.andStart
    decreases |prog|
  {
    var all, deck := prog + [op] + rest, DeckAt(rec, role, 0, 0).(mulCtr := c, andCtr := e);
    if prog == [] {
      assert all[0] == op;
      AndStartDecides(rec, role, e);
      assert AndInSync(deck) == AndInSync(DeckAt(rec, role, 0, 0).(andCtr := e));
    } else {
      assert all[0] == prog[0] && all[1..] == prog[1..] + [op] + rest;
      FirstConjunction(role, prog[1..], rest, op, mem + [Plain(prog[0], mem)], tag, rnd, rec, c, e);
    }
  }
}
