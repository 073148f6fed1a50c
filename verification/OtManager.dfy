// `OTManager` of mpc/ot_manager.hpp: at each end, callers queue tasks and a worker thread runs them one by one.
// The callers at both ends are party 2: its channel to a worker is that worker's task queue, so that a schedule
// of the three parties is any interleaving of enqueues and worker steps at both ends.
module OtManager {
  import opened Blocks
  import opened Fifo
  import opened Rounds
  import opened SimplestOt

  datatype Task = SendTask(n: nat, msgs: seq<(Block, Block)>) | RecvTask(n: nat, choices: seq<bool>)

  /** A queued task or the destructor's end of the queue; the messages of the OT protocol. */
  datatype Msg =
    | Job(task: Task)
    | Stop
    | First(point: Point, comm: Block)
    | Points(points: seq<Point>)
    | Reveal(seed: Block)
    | Eq(bytes: seq<Byte>)
    | Masked(pairs: seq<(Block, Block)>)

  /** What a task's future holds in the end. */
  datatype Outcome = Delivered(msgs: seq<(Block, Block)>) | Chose(blocks: seq<Block>) | Threw

  type Worker = Proc<Msg, seq<Outcome>>
  type Lines = seq<Line<Msg>>

  /** Whether OTs are uniform, and the random draws of task `j` at both ends. All arbitrary. */
  datatype Draws = Draws(uniform: bool, a: nat -> Scalar, seed: nat -> Block, b: (nat, nat) -> Scalar, q: (nat, nat) -> bool)

  function SeedOf(d: Draws, j: nat): Block {
    if d.uniform then d.seed(j) else ZERO
  }

  predicate One(lines: Lines, p: nat) {
    |lines| == 3 && p < 3 && |lines[p].got| == 1
  }

  /** A worker sends one message to the other, or takes one from it. */
  function Out(worker: nat, m: Msg, k: Lines -> Worker): Worker
    requires worker < 2
  {
    Swap(worker, [m], 0, k)
  }

  function In(worker: nat, k: Lines -> Worker): Worker
    requires worker < 2
  {
    Swap(worker, [], 1, k)
  }

  /** Party `me` of the two workers, the other worker, and the callers. */
  function Pair(me: nat, mine: Worker, other: Worker, callers: Worker): State<Msg, seq<Outcome>>
    requires me < 2
  {
    if me == 0 then Trio(mine, other, callers) else Trio(other, mine, callers)
  }

  /** A group in which one line to the other worker is all there is to do. */
  lemma OneLine(me: nat, m: Msg, k: Lines -> Worker)
    requires me < 2
    ensures Sent(Out(me, m, k), 1 - me) == k(From(1 - me, [])) && Received(In(me, k), 1 - me, [m]) == k(From(1 - me, [m]))
  {
    assert [] + [m] == [m];
    if me == 0 {
      assert [Idle(), Line([m], 0, []), Idle()][1 := Emptied(Line([m], 0, []))] == From(1, []);
      assert [Idle(), Line([], 1, []), Idle()][1 := Filled(Line([], 1, []), [m])] == From(1, [m]);
    } else {
      assert [Line([m], 0, []), Idle(), Idle()][0 := Emptied(Line([m], 0, []))] == From(0, []);
      assert [Line([], 1, []), Idle(), Idle()][0 := Filled(Line([], 1, []), [m])] == From(0, [m]);
    }
  }

  /** One message from worker `me` to the other. */
  lemma Hop(me: nat, m: Msg, k: Lines -> Worker, k': Lines -> Worker, p2: Worker)
    requires me < 2
    ensures Leads(Pair(me, Out(me, m, k), In(1 - me, k'), p2), Pair(me, k(From(1 - me, [])), k'(From(me, [m])), p2))
  {
    OneLine(me, m, k);
    OneLine(1 - me, m, k');
    MoveTo(Pair(me, Out(me, m, k), In(1 - me, k'), p2), me, 1 - me, [m], Pair(me, k(From(1 - me, [])), k'(From(me, [m])), p2));
  }

  /** One message from the other worker to `me`. */
  lemma HopBack(me: nat, m: Msg, k: Lines -> Worker, k': Lines -> Worker, p2: Worker)
    requires me < 2
    ensures Leads(Pair(me, In(me, k), Out(1 - me, m, k'), p2), Pair(me, k(From(1 - me, [m])), k'(From(me, [])), p2))
  {
    Hop(1 - me, m, k', k, p2);
  }

  // ---------------------------------------------------------------- the two ends of a task

  /** `ot_send`: a bad size throws and an empty batch is done, both without any message. */
  function SendJob(me: nat, c: Curve, d: Draws, j: nat, n: nat, msgs: seq<(Block, Block)>, k: Outcome -> Worker): Worker
    requires me < 2
  {
    if |msgs| != n then k(Threw)
    else if n == 0 then k(Delivered(msgs))
    else Out(me, First(Gen(c, d.a(j)), c.commit(SeedOf(d, j))), lines => SendPoints(me, c, d, j, n, msgs, k))
  }

  function SendPoints(me: nat, c: Curve, d: Draws, j: nat, n: nat, msgs: seq<(Block, Block)>, k: Outcome -> Worker): Worker
    requires me < 2 && |msgs| == n
  {
    In(me, lines => SendSeed(me, c, d, j, n, msgs, k, lines))
  }

  function SendSeed(me: nat, c: Curve, d: Draws, j: nat, n: nat, msgs: seq<(Block, Block)>, k: Outcome -> Worker, lines: Lines): Worker
    requires me < 2 && |msgs| == n
  {
    if One(lines, 1 - me) && lines[1 - me].got[0].Points? && |lines[1 - me].got[0].points| == n then
      var points := lines[1 - me].got[0].points;
      if d.uniform then Out(me, Reveal(SeedOf(d, j)), lines => SendEq(me, c, d, j, n, msgs, points, k))
      else SendEq(me, c, d, j, n, msgs, points, k)
    else Fault
  }

  function SendEq(me: nat, c: Curve, d: Draws, j: nat, n: nat, msgs: seq<(Block, Block)>, points: seq<Point>, k: Outcome -> Worker): Worker
    requires me < 2 && |msgs| == n == |points|
  {
    In(me, lines => SendMasked(me, c, d, j, n, msgs, points, k, lines))
  }

  /** The sender's pads from random OT. */
  function Pads(c: Curve, d: Draws, j: nat, points: seq<Point>): (r: seq<(Block, Block)>)
    ensures |r| == |points|
  {
    seq(|points|, i requires 0 <= i < |points| => (Pad0(c, d.a(j), points[i], i, SeedOf(d, j)), Pad1(c, d.a(j), points[i], i, SeedOf(d, j))))
  }

  function MaskedAll(pads: seq<(Block, Block)>, msgs: seq<(Block, Block)>, bytes: seq<Byte>): (r: seq<(Block, Block)>)
    requires |pads| == |msgs| && |bytes| == (|msgs| + 7) / 8
    ensures |r| == |msgs|
  {
    seq(|msgs|, i requires 0 <= i < |msgs| => MaskedPair(pads[i], msgs[i], BitOf(bytes, i)))
  }

  function SendMasked(me: nat, c: Curve, d: Draws, j: nat, n: nat, msgs: seq<(Block, Block)>, points: seq<Point>, k: Outcome -> Worker, lines: Lines): Worker
    requires me < 2 && |msgs| == n == |points|
  {
    if One(lines, 1 - me) && lines[1 - me].got[0].Eq? && |lines[1 - me].got[0].bytes| == (n + 7) / 8 then
      Out(me, Masked(MaskedAll(Pads(c, d, j, points), msgs, lines[1 - me].got[0].bytes)), lines => k(Delivered(msgs)))
    else Fault
  }

  /** `ot_receive`. */
  function RecvJob(me: nat, c: Curve, d: Draws, j: nat, n: nat, choices: seq<bool>, k: Outcome -> Worker): Worker
    requires me < 2
  {
    if |choices| != n then k(Threw)
    else if n == 0 then k(Chose([]))
    else In(me, lines => RecvFirst(me, c, d, j, n, choices, k, lines))
  }

  function RandomChoices(d: Draws, j: nat, n: nat): (q: seq<bool>)
    ensures |q| == n
  {
    seq(n, i requires 0 <= i < n => d.q(j, i))
  }

  function Scalars(d: Draws, j: nat, n: nat): (b: seq<Scalar>)
    ensures |b| == n
  {
    seq(n, i requires 0 <= i < n => d.b(j, i))
  }

  function RecvFirst(me: nat, c: Curve, d: Draws, j: nat, n: nat, choices: seq<bool>, k: Outcome -> Worker, lines: Lines): Worker
    requires me < 2 && |choices| == n
  {
    if One(lines, 1 - me) && lines[1 - me].got[0].First? then
      var sender, comm := lines[1 - me].got[0].point, lines[1 - me].got[0].comm;
      Out(me, Points(BlindedAll(c, sender, Scalars(d, j, n), RandomChoices(d, j, n))), lines => RecvSeed(me, c, d, j, n, choices, sender, comm, k))
    else Fault
  }

  function RecvSeed(me: nat, c: Curve, d: Draws, j: nat, n: nat, choices: seq<bool>, sender: Point, comm: Block, k: Outcome -> Worker): Worker
    requires me < 2 && |choices| == n
  {
    if d.uniform then In(me, lines => RecvCheck(me, c, d, j, n, choices, sender, comm, k, lines))
    else RecvEq(me, c, d, j, n, choices, sender, ZERO, k)
  }

  /** A bad decommitment throws. */
  function RecvCheck(me: nat, c: Curve, d: Draws, j: nat, n: nat, choices: seq<bool>, sender: Point, comm: Block, k: Outcome -> Worker, lines: Lines): Worker
    requires me < 2 && |choices| == n
  {
    if One(lines, 1 - me) && lines[1 - me].got[0].Reveal? then
      if c.commit(lines[1 - me].got[0].seed) != comm then k(Threw)
      else RecvEq(me, c, d, j, n, choices, sender, lines[1 - me].got[0].seed, k)
    else Fault
  }

  /** Whether the random choice is the real one. */
  function Equal(choices: seq<bool>, q: seq<bool>): (r: seq<bool>)
    requires |choices| == |q|
    ensures |r| == |q|
  {
    seq(|q|, i requires 0 <= i < |q| => choices[i] == q[i])
  }

  function RecvEq(me: nat, c: Curve, d: Draws, j: nat, n: nat, choices: seq<bool>, sender: Point, seed: Block, k: Outcome -> Worker): Worker
    requires me < 2 && |choices| == n
  {
    Out(me, Eq(PackBits(Equal(choices, RandomChoices(d, j, n)))), lines => RecvLast(me, c, d, j, n, choices, sender, seed, k))
  }

  function RecvLast(me: nat, c: Curve, d: Draws, j: nat, n: nat, choices: seq<bool>, sender: Point, seed: Block, k: Outcome -> Worker): Worker
    requires me < 2 && |choices| == n
  {
    In(me, lines => RecvMasked(me, c, d, j, n, choices, sender, seed, k, lines))
  }

  function Outputs(c: Curve, d: Draws, j: nat, choices: seq<bool>, sender: Point, seed: Block, pairs: seq<(Block, Block)>): (r: seq<Block>)
    requires |choices| == |pairs|
    ensures |r| == |pairs|
  {
    seq(|pairs|, i requires 0 <= i < |pairs| => Xor(if choices[i] then pairs[i].1 else pairs[i].0, ReceiverPad(c, sender, d.b(j, i), i, seed)))
  }

  function RecvMasked(me: nat, c: Curve, d: Draws, j: nat, n: nat, choices: seq<bool>, sender: Point, seed: Block, k: Outcome -> Worker, lines: Lines): Worker
    requires me < 2 && |choices| == n
  {
    if One(lines, 1 - me) && lines[1 - me].got[0].Masked? && |lines[1 - me].got[0].pairs| == n then
      k(Chose(Outputs(c, d, j, choices, sender, seed, lines[1 - me].got[0].pairs)))
    else Fault
  }

  // ---------------------------------------------------------------- the loops of the two ends

  /** The receiver's packing loop: zeroed bytes, then the bit of each choice that is the random one. */
  method EqLoop(choices: seq<bool>, q: seq<bool>) returns (bytes: seq<Byte>)
    requires |choices| == |q|
    ensures bytes == PackBits(Equal(choices, q))
    ensures forall i :: 0 <= i < |q| ==> bytes[i / 8][i % 8] == (choices[i] == q[i])
  {
    bytes := seq<Byte>((|q| + 7) / 8, j => seq(8, t => false));
    var i := 0;
    while i < |q|
      invariant 0 <= i <= |q| && |bytes| == (|q| + 7) / 8
      invariant forall j, t :: 0 <= j < |bytes| && 0 <= t < 8 ==> bytes[j][t] == (8 * j + t < i && choices[8 * j + t] == q[8 * j + t])
    {
      if choices[i] == q[i] {
        bytes := bytes[i / 8 := bytes[i / 8][i % 8 := true]];
      }
      i := i + 1;
    }
    forall j | 0 <= j < |bytes| ensures bytes[j] == PackBits(Equal(choices, q))[j] {
    }
  }

  /** The sender's masking loop. */
  method MaskLoop(pads: seq<(Block, Block)>, msgs: seq<(Block, Block)>, bytes: seq<Byte>) returns (masked: seq<(Block, Block)>)
    requires |pads| == |msgs| && |bytes| == (|msgs| + 7) / 8
    ensures masked == MaskedAll(pads, msgs, bytes)
  {
    masked := [];
    while |masked| < |msgs|
      invariant |masked| <= |msgs| && masked == MaskedAll(pads, msgs, bytes)[..|masked|]
    {
      var i := |masked|;
      var eq := bytes[i / 8][i % 8];
      masked := masked + [(Xor(msgs[i].0, if eq then pads[i].0 else pads[i].1), Xor(msgs[i].1, if eq then pads[i].1 else pads[i].0))];
    }
  }

  /** The receiver's output loop, on the pads it got from random OT. */
  method OutputLoop(masked: seq<(Block, Block)>, choices: seq<bool>, pads: seq<Block>) returns (outputs: seq<Block>)
    requires |masked| == |choices| == |pads|
    ensures |outputs| == |masked| && forall i :: 0 <= i < |masked| ==> outputs[i] == Xor(if choices[i] then masked[i].1 else masked[i].0, pads[i])
  {
    outputs := [];
    while |outputs| < |masked|
      invariant |outputs| <= |masked| && forall i :: 0 <= i < |outputs| ==> outputs[i] == Xor(if choices[i] then masked[i].1 else masked[i].0, pads[i])
    {
      var i := |outputs|;
      outputs := outputs + [Xor(if choices[i] then masked[i].1 else masked[i].0, pads[i])];
    }
  }

  // ---------------------------------------------------------------- one matched pair of tasks

  /** The messages that the receiver asked for. */
  function Selected(msgs: seq<(Block, Block)>, choices: seq<bool>): (r: seq<Block>)
    requires |msgs| == |choices|
    ensures |r| == |msgs| && forall i :: 0 <= i < |r| ==> r[i] == if choices[i] then msgs[i].1 else msgs[i].0
  {
    seq(|msgs|, i requires 0 <= i < |msgs| => if choices[i] then msgs[i].1 else msgs[i].0)
  }

  /** Through random OT, bit packing and masking, the receiver recovers exactly those. */
  lemma OutputsAreSelected(c: Curve, d: Draws, j: nat, msgs: seq<(Block, Block)>, choices: seq<bool>, n: nat)
    requires Lawful(c) && |msgs| == |choices| == n
    ensures var sender, q := Gen(c, d.a(j)), RandomChoices(d, j, n);
            var points := BlindedAll(c, sender, Scalars(d, j, n), q);
            var r := Outputs(c, d, j, choices, sender, SeedOf(d, j), MaskedAll(Pads(c, d, j, points), msgs, PackBits(Equal(choices, q))));
            r == Selected(msgs, choices) && forall i :: 0 <= i < n ==> r[i] == if choices[i] then msgs[i].1 else msgs[i].0
  {
    var sender, q := Gen(c, d.a(j)), RandomChoices(d, j, n);
    var points := BlindedAll(c, sender, Scalars(d, j, n), q);
    var pads, bytes := Pads(c, d, j, points), PackBits(Equal(choices, q));
    var pairs := MaskedAll(pads, msgs, bytes);
    forall i | 0 <= i < n
      ensures Xor(if choices[i] then pairs[i].1 else pairs[i].0, ReceiverPad(c, sender, d.b(j, i), i, SeedOf(d, j)))
           == if choices[i] then msgs[i].1 else msgs[i].0
    {
      PackedBit(Equal(choices, q), i);
      PadsAgree(c, d.a(j), d.b(j, i), q[i], i, SeedOf(d, j));
      ChosenMessage(pads[i], msgs[i], choices[i], q[i]);
    }
  }

  /** A batch that both ends run; worker `me` sends. */
  datatype Batch = Batch(me: nat, j: nat, n: nat, msgs: seq<(Block, Block)>, choices: seq<bool>)

  predicate Runnable(b: Batch) {
    b.me < 2 && |b.msgs| == |b.choices| == b.n > 0
  }

  function SenderPoint(c: Curve, d: Draws, b: Batch): Point {
    Gen(c, d.a(b.j))
  }

  function ReceiverPoints(c: Curve, d: Draws, b: Batch): (r: seq<Point>)
    ensures |r| == b.n
  {
    BlindedAll(c, SenderPoint(c, d, b), Scalars(d, b.j, b.n), RandomChoices(d, b.j, b.n))
  }

  /** The loops of both ends of one batch, on the pads of random OT: the receiver ends with the chosen messages. */
  method BatchLoops(c: Curve, d: Draws, b: Batch) returns (outputs: seq<Block>)
    requires Lawful(c) && Runnable(b)
    ensures |outputs| == b.n && forall i :: 0 <= i < b.n ==> outputs[i] == if b.choices[i] then b.msgs[i].1 else b.msgs[i].0
  {
    var sender, q := SenderPoint(c, d, b), RandomChoices(d, b.j, b.n);
    var bytes := EqLoop(b.choices, q);
    var masked := MaskLoop(Pads(c, d, b.j, ReceiverPoints(c, d, b)), b.msgs, bytes);
    var pads := seq(b.n, i requires 0 <= i < b.n => ReceiverPad(c, sender, d.b(b.j, i), i, SeedOf(d, b.j)));
    outputs := OutputLoop(masked, b.choices, pads);
    OutputsAreSelected(c, d, b.j, b.msgs, b.choices, b.n);
    assert outputs == Outputs(c, d, b.j, b.choices, sender, SeedOf(d, b.j), masked);
  }

  lemma PointsRun(c: Curve, d: Draws, b: Batch, k0: Outcome -> Worker, k1: Outcome -> Worker, p2: Worker)
    requires Runnable(b)
    ensures Leads(Pair(b.me, SendJob(b.me, c, d, b.j, b.n, b.msgs, k0), RecvJob(1 - b.me, c, d, b.j, b.n, b.choices, k1), p2),
                  Pair(b.me, SendSeed(b.me, c, d, b.j, b.n, b.msgs, k0, From(1 - b.me, [Points(ReceiverPoints(c, d, b))])),
                       RecvSeed(1 - b.me, c, d, b.j, b.n, b.choices, SenderPoint(c, d, b), c.commit(SeedOf(d, b.j)), k1), p2))
  {
    var first, points := First(SenderPoint(c, d, b), c.commit(SeedOf(d, b.j))), Points(ReceiverPoints(c, d, b));
    Hop(b.me, first, lines => SendPoints(b.me, c, d, b.j, b.n, b.msgs, k0), lines => RecvFirst(1 - b.me, c, d, b.j, b.n, b.choices, k1, lines), p2);
    HopBack(b.me, points, lines => SendSeed(b.me, c, d, b.j, b.n, b.msgs, k0, lines),
          lines => RecvSeed(1 - b.me, c, d, b.j, b.n, b.choices, SenderPoint(c, d, b), c.commit(SeedOf(d, b.j)), k1), p2);
    LeadsJoin(Pair(b.me, SendJob(b.me, c, d, b.j, b.n, b.msgs, k0), RecvJob(1 - b.me, c, d, b.j, b.n, b.choices, k1), p2),
              Pair(b.me, SendPoints(b.me, c, d, b.j, b.n, b.msgs, k0), RecvFirst(1 - b.me, c, d, b.j, b.n, b.choices, k1, From(b.me, [first])), p2),
              Pair(b.me, SendSeed(b.me, c, d, b.j, b.n, b.msgs, k0, From(1 - b.me, [points])),
                   RecvSeed(1 - b.me, c, d, b.j, b.n, b.choices, SenderPoint(c, d, b), c.commit(SeedOf(d, b.j)), k1), p2));
  }

  /** The seed is revealed when OTs are uniform; the receiver's check of the commitment passes. */
  lemma SeedRun(c: Curve, d: Draws, b: Batch, k0: Outcome -> Worker, k1: Outcome -> Worker, p2: Worker)
    requires Runnable(b)
    ensures Leads(Pair(b.me, SendSeed(b.me, c, d, b.j, b.n, b.msgs, k0, From(1 - b.me, [Points(ReceiverPoints(c, d, b))])),
                       RecvSeed(1 - b.me, c, d, b.j, b.n, b.choices, SenderPoint(c, d, b), c.commit(SeedOf(d, b.j)), k1), p2),
                  Pair(b.me, SendEq(b.me, c, d, b.j, b.n, b.msgs, ReceiverPoints(c, d, b), k0),
                       RecvEq(1 - b.me, c, d, b.j, b.n, b.choices, SenderPoint(c, d, b), SeedOf(d, b.j), k1), p2))
  {
    if d.uniform {
      var comm := c.commit(SeedOf(d, b.j));
      Hop(b.me, Reveal(SeedOf(d, b.j)), lines => SendEq(b.me, c, d, b.j, b.n, b.msgs, ReceiverPoints(c, d, b), k0),
            lines => RecvCheck(1 - b.me, c, d, b.j, b.n, b.choices, SenderPoint(c, d, b), comm, k1, lines), p2);
    } else {
      LeadsSelf(Pair(b.me, SendEq(b.me, c, d, b.j, b.n, b.msgs, ReceiverPoints(c, d, b), k0),
                     RecvEq(1 - b.me, c, d, b.j, b.n, b.choices, SenderPoint(c, d, b), SeedOf(d, b.j), k1), p2));
    }
  }

  function EqBytes(d: Draws, b: Batch): (r: seq<Byte>)
    requires Runnable(b)
    ensures |r| == (b.n + 7) / 8
  {
    PackBits(Equal(b.choices, RandomChoices(d, b.j, b.n)))
  }

  function MaskedPairs(c: Curve, d: Draws, b: Batch): (r: seq<(Block, Block)>)
    requires Runnable(b)
    ensures |r| == b.n
  {
    MaskedAll(Pads(c, d, b.j, ReceiverPoints(c, d, b)), b.msgs, EqBytes(d, b))
  }

  lemma MaskedRun(c: Curve, d: Draws, b: Batch, k0: Outcome -> Worker, k1: Outcome -> Worker, p2: Worker)
    requires Runnable(b)
    ensures Leads(Pair(b.me, SendEq(b.me, c, d, b.j, b.n, b.msgs, ReceiverPoints(c, d, b), k0),
                       RecvEq(1 - b.me, c, d, b.j, b.n, b.choices, SenderPoint(c, d, b), SeedOf(d, b.j), k1), p2),
                  Pair(b.me, k0(Delivered(b.msgs)), k1(Chose(Outputs(c, d, b.j, b.choices, SenderPoint(c, d, b), SeedOf(d, b.j), MaskedPairs(c, d, b)))), p2))
  {
    var eq, masked := Eq(EqBytes(d, b)), Masked(MaskedPairs(c, d, b));
    var points, sender, seed := ReceiverPoints(c, d, b), SenderPoint(c, d, b), SeedOf(d, b.j);
    HopBack(b.me, eq, lines => SendMasked(b.me, c, d, b.j, b.n, b.msgs, points, k0, lines), lines => RecvLast(1 - b.me, c, d, b.j, b.n, b.choices, sender, seed, k1), p2);
    Hop(b.me, masked, lines => k0(Delivered(b.msgs)), lines => RecvMasked(1 - b.me, c, d, b.j, b.n, b.choices, sender, seed, k1, lines), p2);
    LeadsJoin(Pair(b.me, SendEq(b.me, c, d, b.j, b.n, b.msgs, points, k0), RecvEq(1 - b.me, c, d, b.j, b.n, b.choices, sender, seed, k1), p2),
              Pair(b.me, SendMasked(b.me, c, d, b.j, b.n, b.msgs, points, k0, From(1 - b.me, [eq])), RecvLast(1 - b.me, c, d, b.j, b.n, b.choices, sender, seed, k1), p2),
              Pair(b.me, k0(Delivered(b.msgs)), k1(Chose(Outputs(c, d, b.j, b.choices, sender, seed, MaskedPairs(c, d, b)))), p2));
  }

  /** A matched pair of tasks delivers the chosen messages. */
  lemma BatchRun(c: Curve, d: Draws, b: Batch, k0: Outcome -> Worker, k1: Outcome -> Worker, p2: Worker)
    requires Lawful(c) && Runnable(b)
    ensures Leads(Pair(b.me, SendJob(b.me, c, d, b.j, b.n, b.msgs, k0), RecvJob(1 - b.me, c, d, b.j, b.n, b.choices, k1), p2),
                  Pair(b.me, k0(Delivered(b.msgs)), k1(Chose(Selected(b.msgs, b.choices))), p2))
  {
    PointsRun(c, d, b, k0, k1, p2);
    SeedRun(c, d, b, k0, k1, p2);
    MaskedRun(c, d, b, k0, k1, p2);
    OutputsAreSelected(c, d, b.j, b.msgs, b.choices, b.n);
    var s0 := Pair(b.me, SendJob(b.me, c, d, b.j, b.n, b.msgs, k0), RecvJob(1 - b.me, c, d, b.j, b.n, b.choices, k1), p2);
    var s1 := Pair(b.me, SendSeed(b.me, c, d, b.j, b.n, b.msgs, k0, From(1 - b.me, [Points(ReceiverPoints(c, d, b))])),
                   RecvSeed(1 - b.me, c, d, b.j, b.n, b.choices, SenderPoint(c, d, b), c.commit(SeedOf(d, b.j)), k1), p2);
    var s2 := Pair(b.me, SendEq(b.me, c, d, b.j, b.n, b.msgs, ReceiverPoints(c, d, b), k0),
                   RecvEq(1 - b.me, c, d, b.j, b.n, b.choices, SenderPoint(c, d, b), SeedOf(d, b.j), k1), p2);
    LeadsJoin(s0, s1, s2);
    LeadsJoin(s0, s2, Pair(b.me, k0(Delivered(b.msgs)), k1(Chose(Selected(b.msgs, b.choices))), p2));
  }

  // ---------------------------------------------------------------- queues and workers

  /** The callers at both ends, with what they have still to enqueue. */
  function Callers(q0: seq<Msg>, q1: seq<Msg>): Worker {
    Resume([Line(q0, 0, []), Line(q1, 0, []), Idle()], lines => Done([]))
  }

  /** What worker `me` runs for a task. */
  function Run(me: nat, c: Curve, d: Draws, j: nat, t: Task, k: Outcome -> Worker): Worker
    requires me < 2
  {
    match t
    case SendTask(n, msgs) => SendJob(me, c, d, j, n, msgs, k)
    case RecvTask(n, choices) => RecvJob(me, c, d, j, n, choices, k)
  }

  /**
   `run`: takes the next task from the queue, runs it, and exits at the end of the queue. `most` only bounds the
   number of rounds for termination; any bound above the number of tasks will do.
   */
  function Loop(role: nat, c: Curve, d: Draws, j: nat, results: seq<Outcome>, most: nat): Worker
    requires role < 2
    decreases most, 0
  {
    if most == 0 then Fault
    else Take(1, (lines: Lines) => if One(lines, 2) then Perform(role, c, d, j, results, most - 1, lines[2].got[0]) else Fault)
  }

  function Perform(role: nat, c: Curve, d: Draws, j: nat, results: seq<Outcome>, most: nat, m: Msg): Worker
    requires role < 2
    decreases most, 1
  {
    match m
    case Stop => Done(results)
    case Job(task) => Run(role, c, d, j, task, (o: Outcome) => Loop(role, c, d, j + 1, results + [o], most))
    case _ => Fault
  }

  lemma TakeTask0(k: Lines -> Worker, p1: Worker, m: Msg, q0: seq<Msg>, q1: seq<Msg>)
    ensures Leads(Trio(Take(1, k), p1, Callers([m] + q0, q1)), Trio(k(From(2, [m])), p1, Callers(q0, q1)))
  {
    var s, t := Trio(Take(1, k), p1, Callers([m] + q0, q1)), Trio(k(From(2, [m])), p1, Callers(q0, q1));
    var l := [Line([m] + q0, 0, []), Line(q1, 0, []), Idle()];
    assert l[0].out != [];
    assert s.procs[2] == Await(l, lines => Done([]));
    assert l[0 := Line(q0, 0, [])] == [Line(q0, 0, []), Line(q1, 0, []), Idle()];
    TakeDone([m], k);
    MoveHead(s, 2, 0, m, q0, t);
  }

  lemma TakeTask1(p0: Worker, k: Lines -> Worker, m: Msg, q0: seq<Msg>, q1: seq<Msg>)
    ensures Leads(Trio(p0, Take(1, k), Callers(q0, [m] + q1)), Trio(p0, k(From(2, [m])), Callers(q0, q1)))
  {
    var s, t := Trio(p0, Take(1, k), Callers(q0, [m] + q1)), Trio(p0, k(From(2, [m])), Callers(q0, q1));
    var l := [Line(q0, 0, []), Line([m] + q1, 0, []), Idle()];
    assert l[1].out != [];
    assert s.procs[2] == Await(l, lines => Done([]));
    assert l[1 := Line(q1, 0, [])] == [Line(q0, 0, []), Line(q1, 0, []), Idle()];
    TakeDone([m], k);
    MoveHead(s, 2, 1, m, q1, t);
  }

  /** Both workers take their next task. */
  lemma TakeTasks(k0: Lines -> Worker, k1: Lines -> Worker, m0: Msg, q0: seq<Msg>, m1: Msg, q1: seq<Msg>)
    ensures Leads(Trio(Take(1, k0), Take(1, k1), Callers([m0] + q0, [m1] + q1)), Trio(k0(From(2, [m0])), k1(From(2, [m1])), Callers(q0, q1)))
  {
    TakeTask0(k0, Take(1, k1), m0, q0, [m1] + q1);
    TakeTask1(k0(From(2, [m0])), k1, m1, q0, q1);
    LeadsJoin(Trio(Take(1, k0), Take(1, k1), Callers([m0] + q0, [m1] + q1)), Trio(k0(From(2, [m0])), Take(1, k1), Callers(q0, [m1] + q1)),
              Trio(k0(From(2, [m0])), k1(From(2, [m1])), Callers(q0, q1)));
  }

  /** A send task and its receive task: both run and agree on the size, or neither runs. */
  predicate Agree(s: Task, r: Task) {
    && s.SendTask? && r.RecvTask?
    && (|s.msgs| == s.n > 0 <==> |r.choices| == r.n > 0)
    && (|s.msgs| == s.n > 0 ==> s.n == r.n)
  }

  /** Tasks that belong together, whichever end sends. */
  predicate Matched(t0: Task, t1: Task) {
    Agree(t0, t1) || Agree(t1, t0)
  }

  /** What task `t` ends with when the other end runs `other`: a receive task gets the chosen messages of its send task. */
  function OutcomeOf(t: Task, other: Task): (o: Outcome)
    requires Matched(t, other)
    ensures t.RecvTask? && |t.choices| == t.n ==> o.Chose? && |o.blocks| == t.n <= |other.msgs|
    ensures t.RecvTask? && |t.choices| == t.n ==> forall i :: 0 <= i < t.n ==> o.blocks[i] == if t.choices[i] then other.msgs[i].1 else other.msgs[i].0
  {
    match t
    case SendTask(n, msgs) => if |msgs| != n then Threw else Delivered(msgs)
    case RecvTask(n, choices) => if |choices| != n then Threw else if n == 0 then Chose([]) else Chose(Selected(other.msgs, choices))
  }

  function Queue(tasks: seq<Task>): (q: seq<Msg>)
    ensures |q| == |tasks| + 1
  {
    if tasks == [] then [Stop] else [Job(tasks[0])] + Queue(tasks[1..])
  }

  function Outcomes(ts: seq<Task>, others: seq<Task>): (r: seq<Outcome>)
    requires AllMatched(ts, others)
    ensures |r| == |ts|
  {
    seq(|ts|, i requires 0 <= i < |ts| => OutcomeOf(ts[i], others[i]))
  }

  predicate AllMatched(ts0: seq<Task>, ts1: seq<Task>) {
    |ts0| == |ts1| && forall i :: 0 <= i < |ts0| ==> Matched(ts0[i], ts1[i])
  }

  function Ends(c: Curve, d: Draws, j: nat, r0: seq<Outcome>, r1: seq<Outcome>, n0: nat, n1: nat, q0: seq<Msg>, q1: seq<Msg>): State<Msg, seq<Outcome>> {
    Trio(Loop(0, c, d, j, r0, n0), Loop(1, c, d, j, r1, n1), Callers(q0, q1))
  }

  /** A send task at worker `me` and its receive task at the other. */
  lemma AgreedRun(me: nat, c: Curve, d: Draws, j: nat, s: Task, r: Task, k: Outcome -> Worker, k': Outcome -> Worker, p2: Worker)
    requires me < 2 && Lawful(c) && Agree(s, r)
    ensures Leads(Pair(me, Run(me, c, d, j, s, k), Run(1 - me, c, d, j, r, k'), p2), Pair(me, k(OutcomeOf(s, r)), k'(OutcomeOf(r, s)), p2))
  {
    if |s.msgs| == s.n > 0 {
      BatchRun(c, d, Batch(me, j, s.n, s.msgs, r.choices), k, k', p2);
    } else {
      LeadsSelf(Pair(me, Run(me, c, d, j, s, k), Run(1 - me, c, d, j, r, k'), p2));
    }
  }

  lemma TaskPairRun(c: Curve, d: Draws, j: nat, t0: Task, t1: Task, k0: Outcome -> Worker, k1: Outcome -> Worker, p2: Worker)
    requires Lawful(c) && Matched(t0, t1)
    ensures Leads(Trio(Run(0, c, d, j, t0, k0), Run(1, c, d, j, t1, k1), p2), Trio(k0(OutcomeOf(t0, t1)), k1(OutcomeOf(t1, t0)), p2))
  {
    if Agree(t0, t1) {
      AgreedRun(0, c, d, j, t0, t1, k0, k1, p2);
    } else {
      AgreedRun(1, c, d, j, t1, t0, k1, k0, p2);
    }
  }

  lemma NextTasks(c: Curve, d: Draws, j: nat, r0: seq<Outcome>, r1: seq<Outcome>, n0: nat, n1: nat, t0: Task, t1: Task, q0: seq<Msg>, q1: seq<Msg>)
    requires Lawful(c) && Matched(t0, t1) && n0 > 0 && n1 > 0
    ensures Leads(Ends(c, d, j, r0, r1, n0, n1, [Job(t0)] + q0, [Job(t1)] + q1),
                  Ends(c, d, j + 1, r0 + [OutcomeOf(t0, t1)], r1 + [OutcomeOf(t1, t0)], n0 - 1, n1 - 1, q0, q1))
  {
    var k0 := (lines: Lines) => if One(lines, 2) then Perform(0, c, d, j, r0, n0 - 1, lines[2].got[0]) else Fault;
    var k1 := (lines: Lines) => if One(lines, 2) then Perform(1, c, d, j, r1, n1 - 1, lines[2].got[0]) else Fault;
    TakeTasks(k0, k1, Job(t0), q0, Job(t1), q1);
    var mid := Trio(Perform(0, c, d, j, r0, n0 - 1, Job(t0)), Perform(1, c, d, j, r1, n1 - 1, Job(t1)), Callers(q0, q1));
    TaskPairRun(c, d, j, t0, t1, (o: Outcome) => Loop(0, c, d, j + 1, r0 + [o], n0 - 1), (o: Outcome) => Loop(1, c, d, j + 1, r1 + [o], n1 - 1), Callers(q0, q1));
    LeadsJoin(Ends(c, d, j, r0, r1, n0, n1, [Job(t0)] + q0, [Job(t1)] + q1), mid,
              Ends(c, d, j + 1, r0 + [OutcomeOf(t0, t1)], r1 + [OutcomeOf(t1, t0)], n0 - 1, n1 - 1, q0, q1));
  }

  lemma StopRun(c: Curve, d: Draws, j: nat, r0: seq<Outcome>, r1: seq<Outcome>, n0: nat, n1: nat)
    requires n0 > 0 && n1 > 0
    ensures Leads(Ends(c, d, j, r0, r1, n0, n1, [Stop], [Stop]), Trio(Done(r0), Done(r1), Done([])))
  {
    var k0 := (lines: Lines) => if One(lines, 2) then Perform(0, c, d, j, r0, n0 - 1, lines[2].got[0]) else Fault;
    var k1 := (lines: Lines) => if One(lines, 2) then Perform(1, c, d, j, r1, n1 - 1, lines[2].got[0]) else Fault;
    assert [Stop] + [] == [Stop];
    TakeTasks(k0, k1, Stop, [], Stop, []);
    NoCallers();
  }

  lemma NoCallers()
    ensures Callers([], []) == Done([])
  {
    assert Complete<Msg>([Line([], 0, []), Line([], 0, []), Idle()]);
  }

  /** From these results and queues on, both workers end with the given outcomes. */
  ghost predicate RunOut(c: Curve, d: Draws, j: nat, r0: seq<Outcome>, r1: seq<Outcome>, n0: nat, n1: nat, q0: seq<Msg>, q1: seq<Msg>,
                         f0: seq<Outcome>, f1: seq<Outcome>) {
    Leads(Ends(c, d, j, r0, r1, n0, n1, q0, q1), Trio(Done(f0), Done(f1), Done([])))
  }

  lemma RunOutStep(c: Curve, d: Draws, j: nat, r0: seq<Outcome>, r1: seq<Outcome>, n0: nat, n1: nat, t0: Task, t1: Task, q0: seq<Msg>, q1: seq<Msg>,
                   f0: seq<Outcome>, f1: seq<Outcome>)
    requires Lawful(c) && Matched(t0, t1) && n0 > 0 && n1 > 0
    requires RunOut(c, d, j + 1, r0 + [OutcomeOf(t0, t1)], r1 + [OutcomeOf(t1, t0)], n0 - 1, n1 - 1, q0, q1, f0, f1)
    ensures RunOut(c, d, j, r0, r1, n0, n1, [Job(t0)] + q0, [Job(t1)] + q1, f0, f1)
  {
    NextTasks(c, d, j, r0, r1, n0, n1, t0, t1, q0, q1);
    LeadsJoin(Ends(c, d, j, r0, r1, n0, n1, [Job(t0)] + q0, [Job(t1)] + q1),
              Ends(c, d, j + 1, r0 + [OutcomeOf(t0, t1)], r1 + [OutcomeOf(t1, t0)], n0 - 1, n1 - 1, q0, q1), Trio(Done(f0), Done(f1), Done([])));
  }

  lemma OutcomesPush(ts0: seq<Task>, ts1: seq<Task>, r0: seq<Outcome>, r1: seq<Outcome>)
    requires AllMatched(ts0, ts1) && ts0 != []
    ensures r0 + [OutcomeOf(ts0[0], ts1[0])] + Outcomes(ts0[1..], ts1[1..]) == r0 + Outcomes(ts0, ts1)
    ensures r1 + [OutcomeOf(ts1[0], ts0[0])] + Outcomes(ts1[1..], ts0[1..]) == r1 + Outcomes(ts1, ts0)
  {
  }

  /** All tasks run, in order, with their outcomes, and then both workers exit. */
  lemma {:induction false} TasksRun(c: Curve, d: Draws, j: nat, r0: seq<Outcome>, r1: seq<Outcome>, n0: nat, n1: nat, ts0: seq<Task>, ts1: seq<Task>)
    requires Lawful(c) && AllMatched(ts0, ts1) && n0 > |ts0| && n1 > |ts0|
    ensures RunOut(c, d, j, r0, r1, n0, n1, Queue(ts0), Queue(ts1), r0 + Outcomes(ts0, ts1), r1 + Outcomes(ts1, ts0))
    decreases |ts0|
  {
    if ts0 == [] {
      assert r0 + Outcomes(ts0, ts1) == r0 && r1 + Outcomes(ts1, ts0) == r1;
      StopRun(c, d, j, r0, r1, n0, n1);
    } else {
      TasksRun(c, d, j + 1, r0 + [OutcomeOf(ts0[0], ts1[0])], r1 + [OutcomeOf(ts1[0], ts0[0])], n0 - 1, n1 - 1, ts0[1..], ts1[1..]);
      OutcomesPush(ts0, ts1, r0, r1);
      RunOutStep(c, d, j, r0, r1, n0, n1, ts0[0], ts1[0], Queue(ts0[1..]), Queue(ts1[1..]), r0 + Outcomes(ts0, ts1), r1 + Outcomes(ts1, ts0));
    }
  }

  /**
   Chosen OT over any schedule: for every lawful group, all draws and all matched task lists, every interleaving
   of enqueues and worker steps at both ends reaches the same end: each worker has run every task once, in order,
   every receive task holds the chosen messages of its send task, and nothing is left on the wire. Either end may
   send in any task.
   */
  lemma EverySchedule(c: Curve, d: Draws, ts0: seq<Task>, ts1: seq<Task>, n0: nat, n1: nat)
    returns (n: nat, r0: seq<Outcome>, r1: seq<Outcome>)
    requires Lawful(c) && AllMatched(ts0, ts1) && n0 > |ts0| && n1 > |ts0|
    ensures |r0| == |r1| == |ts0| && Final(Trio<Msg, seq<Outcome>>(Done(r0), Done(r1), Done([])))
    ensures forall sched, t :: Runs(Ends(c, d, 0, [], [], n0, n1, Queue(ts0), Queue(ts1)), sched, t) ==>
              OnCourse(sched, t, Trio(Done(r0), Done(r1), Done([])), n)
    ensures forall k :: 0 <= k < |ts0| ==>
              match ts0[k]
              case SendTask(m, msgs) => r0[k] == if |msgs| == m then Delivered(msgs) else Threw
              case RecvTask(m, choices) => if |choices| != m then r0[k] == Threw else
                r0[k].Chose? && |r0[k].blocks| == m && forall i :: 0 <= i < m ==> r0[k].blocks[i] == if choices[i] then ts1[k].msgs[i].1 else ts1[k].msgs[i].0
    ensures forall k :: 0 <= k < |ts0| ==>
              match ts1[k]
              case SendTask(m, msgs) => r1[k] == if |msgs| == m then Delivered(msgs) else Threw
              case RecvTask(m, choices) => if |choices| != m then r1[k] == Threw else
                r1[k].Chose? && |r1[k].blocks| == m && forall i :: 0 <= i < m ==> r1[k].blocks[i] == if choices[i] then ts0[k].msgs[i].1 else ts0[k].msgs[i].0
  {
    TasksRun(c, d, 0, [], [], n0, n1, ts0, ts1);
    r0, r1 := Outcomes(ts0, ts1), Outcomes(ts1, ts0);
    assert [] + r0 == r0 && [] + r1 == r1;
    n := AllOnCourse(Ends(c, d, 0, [], [], n0, n1, Queue(ts0), Queue(ts1)), Trio(Done(r0), Done(r1), Done([])));
  }
}
