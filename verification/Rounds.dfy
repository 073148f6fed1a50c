/** The two rounds the three-party operations are made of: a deal by P2, and an exchange between P0 and P1. */
module Rounds {
  import opened Fifo

  ghost predicate Leads<M(!new), R(!new)>(s: State<M, R>, t: State<M, R>) {
    exists sched :: Runs(s, sched, t)
  }

  lemma LeadsSelf<M(!new), R(!new)>(s: State<M, R>)
    ensures Leads(s, s)
  {
    assert Runs(s, [], s);
  }

  lemma LeadsJoin<M(!new), R(!new)>(s: State<M, R>, t: State<M, R>, u: State<M, R>)
    requires Leads(s, t) && Leads(t, u)
    ensures Leads(s, u)
  {
    var a :| Runs(s, a, t);
    var b :| Runs(t, b, u);
    RunsJoin(s, a, t, b, u);
  }

  /** A schedule of at most `n` steps, in a healthy state that is the outcome `f` exactly after `n` steps. */
  ghost predicate OnCourse<M(!new), R(!new)>(sched: seq<Label>, t: State<M, R>, f: State<M, R>, n: nat) {
    |sched| <= n && Healthy(t, f) && (|sched| == n <==> t == f)
  }

  /** When some schedule leads to a final state, every schedule is on course to it. */
  lemma AllOnCourse<M(!new), R(!new)>(s: State<M, R>, f: State<M, R>) returns (n: nat)
    requires Leads(s, f) && Final(f)
    ensures forall sched, t :: Runs(s, sched, t) ==> OnCourse(sched, t, f, n)
  {
    var canon :| Runs(s, canon, f);
    n := |canon|;
    forall sched, t | Runs(s, sched, t) ensures OnCourse(sched, t, f, n) {
      AllHealthy(s, canon, f, sched, t);
    }
  }

  /** `p` has a message for `q`, which waits for one, and the channel is clear. */
  predicate CanCross<M(==), R>(s: State<M, R>, p: nat, q: nat) {
    && ThreeParty(s) && p < 3 && q < 3 && p != q && Waits(s.procs[p], q) && Waits(s.procs[q], p)
    && s.procs[p].lines[q].out != [] && s.procs[q].lines[p].need > 0 && s.chans[3 * p + q] == []
  }

  /** A process with its first message for `q` sent, and one with `m` received from `p`. */
  function SentOne<M, R>(proc: Proc<M, R>, q: nat): Proc<M, R>
    requires Waits(proc, q) && proc.lines[q].out != []
  {
    Resume(proc.lines[q := Line(proc.lines[q].out[1..], proc.lines[q].need, proc.lines[q].got)], proc.k)
  }

  function GotOne<M, R>(proc: Proc<M, R>, p: nat, m: M): Proc<M, R>
    requires Waits(proc, p) && proc.lines[p].need > 0
  {
    Resume(proc.lines[p := Line(proc.lines[p].out, proc.lines[p].need - 1, proc.lines[p].got + [m])], proc.k)
  }

  /** The message on its way, and arrived. */
  function InTransit<M, R>(s: State<M, R>, p: nat, q: nat): State<M, R>
    requires CanCross(s, p, q)
  {
    State(s.procs[p := SentOne(s.procs[p], q)], s.chans[3 * p + q := [s.procs[p].lines[q].out[0]]])
  }

  function Crossed<M, R>(s: State<M, R>, p: nat, q: nat): State<M, R>
    requires CanCross(s, p, q)
  {
    State(s.procs[p := SentOne(s.procs[p], q)][q := GotOne(s.procs[q], p, s.procs[p].lines[q].out[0])], s.chans)
  }

  lemma SendStep<M(!new), R(!new)>(s: State<M, R>, p: nat, q: nat)
    requires CanCross(s, p, q)
    ensures Enabled(s, Send(p, q)) && Do(s, Send(p, q)) == InTransit(s, p, q)
  {
    var m := s.procs[p].lines[q].out[0];
    assert s.chans[3 * p + q] + [m] == [m];
  }

  lemma RecvStep<M(!new), R(!new)>(s: State<M, R>, p: nat, q: nat)
    requires CanCross(s, p, q)
    ensures Enabled(InTransit(s, p, q), Recv(q, p)) && Do(InTransit(s, p, q), Recv(q, p)) == Crossed(s, p, q)
  {
    var t := InTransit(s, p, q);
    assert t.procs[q] == s.procs[q];
    assert t.chans[3 * p + q][1..] == [];
    assert t.chans[3 * p + q := []] == s.chans;
  }

  lemma TwoSteps<M(!new), R(!new)>(s: State<M, R>, a: Label, b: Label)
    requires Enabled(s, a) && Enabled(Do(s, a), b)
    ensures Runs(s, [a, b], Do(Do(s, a), b))
  {
    assert [a, b][1..] == [b] && [b][1..] == [];
    assert Runs(Do(Do(s, a), b), [], Do(Do(s, a), b));
    assert Runs(Do(s, a), [b], Do(Do(s, a), b));
  }

  /** One message goes across. */
  lemma Cross<M(!new), R(!new)>(s: State<M, R>, p: nat, q: nat)
    requires CanCross(s, p, q)
    ensures Leads(s, Crossed(s, p, q))
  {
    SendStep(s, p, q);
    RecvStep(s, p, q);
    TwoSteps(s, Send(p, q), Recv(q, p));
  }

  /** `p` has `ms` left for `q`, which is all that `q` still needs from `p`, and the channel is clear. */
  predicate Ready<M(==), R>(s: State<M, R>, p: nat, q: nat, ms: seq<M>) {
    && ThreeParty(s) && p < 3 && q < 3 && p != q && Waits(s.procs[p], q) && Waits(s.procs[q], p)
    && s.procs[p].lines[q].out == ms && s.procs[q].lines[p].need == |ms| && s.chans[3 * p + q] == []
  }

  function Emptied<M>(line: Line<M>): Line<M> {
    Line([], line.need, line.got)
  }

  function Filled<M>(line: Line<M>, ms: seq<M>): Line<M> {
    Line(line.out, 0, line.got + ms)
  }

  /** A process once its messages for `q` are gone, and once it has `ms` from `q`. */
  function Sent<M, R>(proc: Proc<M, R>, q: nat): Proc<M, R>
    requires Waits(proc, q)
  {
    Resume(proc.lines[q := Emptied(proc.lines[q])], proc.k)
  }

  function Received<M, R>(proc: Proc<M, R>, q: nat, ms: seq<M>): Proc<M, R>
    requires Waits(proc, q)
  {
    Resume(proc.lines[q := Filled(proc.lines[q], ms)], proc.k)
  }

  /** The state once those messages have gone across. */
  function Moved<M, R>(s: State<M, R>, p: nat, q: nat, ms: seq<M>): State<M, R>
    requires ThreeParty(s) && p < 3 && q < 3 && p != q && Waits(s.procs[p], q) && Waits(s.procs[q], p)
  {
    State(s.procs[p := Sent(s.procs[p], q)][q := Received(s.procs[q], p, ms)], s.chans)
  }

  lemma LastSent<M, R>(proc: Proc<M, R>, q: nat)
    requires Waits(proc, q) && |proc.lines[q].out| == 1
    ensures SentOne(proc, q) == Sent(proc, q)
  {
    assert proc.lines[q].out[1..] == [];
  }

  lemma LastGot<M, R>(proc: Proc<M, R>, p: nat, ms: seq<M>)
    requires Waits(proc, p) && proc.lines[p].need == |ms| == 1
    ensures GotOne(proc, p, ms[0]) == Received(proc, p, ms)
  {
    assert ms == [ms[0]];
  }

  /** A process with more to send, or more to get, goes on waiting. */
  lemma MoreToSend<M, R>(proc: Proc<M, R>, q: nat)
    requires Waits(proc, q) && |proc.lines[q].out| > 1
    ensures Waits(SentOne(proc, q), q) && SentOne(proc, q).lines[q].out == proc.lines[q].out[1..]
    ensures Sent(SentOne(proc, q), q) == Sent(proc, q)
  {
    var l := proc.lines[q := Line(proc.lines[q].out[1..], proc.lines[q].need, proc.lines[q].got)];
    assert l[q].out != [];
    assert SentOne(proc, q) == Await(l, proc.k);
    assert l[q := Emptied(l[q])] == proc.lines[q := Emptied(proc.lines[q])];
  }

  lemma MoreToGet<M, R>(proc: Proc<M, R>, p: nat, ms: seq<M>)
    requires Waits(proc, p) && proc.lines[p].need == |ms| > 1
    ensures Waits(GotOne(proc, p, ms[0]), p) && GotOne(proc, p, ms[0]).lines[p].need == |ms| - 1
    ensures Received(GotOne(proc, p, ms[0]), p, ms[1..]) == Received(proc, p, ms)
  {
    var l := proc.lines[p := Line(proc.lines[p].out, proc.lines[p].need - 1, proc.lines[p].got + [ms[0]])];
    assert l[p].need != 0;
    assert GotOne(proc, p, ms[0]) == Await(l, proc.k);
    assert l[p].got + ms[1..] == proc.lines[p].got + ms;
    assert l[p := Filled(l[p], ms[1..])] == proc.lines[p := Filled(proc.lines[p], ms)];
  }

  lemma MovedLast<M(!new), R(!new)>(s: State<M, R>, p: nat, q: nat, ms: seq<M>)
    requires Ready(s, p, q, ms) && |ms| == 1
    ensures Crossed(s, p, q) == Moved(s, p, q, ms)
  {
    LastSent(s.procs[p], q);
    LastGot(s.procs[q], p, ms);
  }

  lemma MovedRest<M(!new), R(!new)>(s: State<M, R>, p: nat, q: nat, ms: seq<M>)
    requires Ready(s, p, q, ms) && |ms| > 1
    ensures Ready(Crossed(s, p, q), p, q, ms[1..]) && Moved(Crossed(s, p, q), p, q, ms[1..]) == Moved(s, p, q, ms)
  {
    var t := Crossed(s, p, q);
    MoreToSend(s.procs[p], q);
    MoreToGet(s.procs[q], p, ms);
    assert t.procs[p] == SentOne(s.procs[p], q) && t.procs[q] == GotOne(s.procs[q], p, ms[0]);
    SameState(Moved(t, p, q, ms[1..]), Moved(s, p, q, ms));
  }

  /** All messages go across, one after the other. */
  lemma {:induction false} MoveAll<M(!new), R(!new)>(s: State<M, R>, p: nat, q: nat, ms: seq<M>)
    requires Ready(s, p, q, ms) && ms != []
    ensures Leads(s, Moved(s, p, q, ms))
    decreases |ms|
  {
    Cross(s, p, q);
    if |ms| == 1 {
      MovedLast(s, p, q, ms);
    } else {
      MovedRest(s, p, q, ms);
      MoveAll(Crossed(s, p, q), p, q, ms[1..]);
      LeadsJoin(s, Crossed(s, p, q), Moved(s, p, q, ms));
    }
  }

  function Idle<M>(): Line<M> {
    Line([], 0, [])
  }

  function Clear<M>(): (c: seq<seq<M>>)
    ensures |c| == 9 && forall i :: 0 <= i < 9 ==> c[i] == []
  {
    seq(9, i => [])
  }

  /** Three processes and clear channels. */
  function Trio<M, R>(p0: Proc<M, R>, p1: Proc<M, R>, p2: Proc<M, R>): State<M, R> {
    State([p0, p1, p2], Clear())
  }

  /** P2 sends to both workers. */
  function Deal<M, R>(d0: seq<M>, d1: seq<M>, k: seq<Line<M>> -> Proc<M, R>): Proc<M, R> {
    Await([Line(d0, 0, []), Line(d1, 0, []), Idle()], k)
  }

  /** A worker receives `n` messages from P2. */
  function Take<M, R>(n: nat, k: seq<Line<M>> -> Proc<M, R>): Proc<M, R> {
    Await([Idle(), Idle(), Line([], n, [])], k)
  }

  /** Worker 0 or 1 sends to the other and receives `n` messages from it. */
  function Swap<M, R>(worker: nat, out: seq<M>, n: nat, k: seq<Line<M>> -> Proc<M, R>): Proc<M, R>
    requires worker < 2
  {
    Await(if worker == 0 then [Idle(), Line(out, n, []), Idle()] else [Line(out, n, []), Idle(), Idle()], k)
  }

  /** What a group hands to its continuation when only party `q` sent something. */
  function From<M>(q: nat, ms: seq<M>): (r: seq<Line<M>>)
    requires q < 3
    ensures |r| == 3 && r[q].got == ms
  {
    [Idle(), Idle(), Idle()][q := Line([], 0, ms)]
  }

  lemma ThirdParty<M, R>(s: seq<Proc<M, R>>, t: seq<Proc<M, R>>, p: nat, q: nat)
    requires |s| == |t| == 3 && p < 3 && q < 3 && p != q && t[3 - p - q] == s[3 - p - q]
    ensures t == s[p := t[p]][q := t[q]]
  {
  }

  lemma MoveTo<M(!new), R(!new)>(s: State<M, R>, p: nat, q: nat, ms: seq<M>, t: State<M, R>)
    requires Ready(s, p, q, ms) && ms != [] && ThreeParty(t) && t.chans == s.chans
    requires t.procs[p] == Sent(s.procs[p], q) && t.procs[q] == Received(s.procs[q], p, ms)
    requires t.procs[3 - p - q] == s.procs[3 - p - q]
    ensures Leads(s, t)
  {
    MoveAll(s, p, q, ms);
    ThirdParty(s.procs, t.procs, p, q);
    SameState(Moved(s, p, q, ms), t);
  }

  lemma TakeDone<M, R>(d: seq<M>, k: seq<Line<M>> -> Proc<M, R>)
    ensures Received(Take(|d|, k), 2, d) == k(From(2, d))
  {
    assert [] + d == d;
    assert [Idle(), Idle(), Line([], |d|, [])][2 := Filled(Line([], |d|, []), d)] == From(2, d);
  }

  lemma DealSteps<M, R>(d0: seq<M>, d1: seq<M>, k: seq<Line<M>> -> Proc<M, R>)
    requires d1 != []
    ensures Sent(Deal(d0, d1, k), 0) == Deal([], d1, k) && Sent(Deal([], d1, k), 1) == k(From(2, []))
  {
    var l := [Line(d0, 0, []), Line(d1, 0, []), Idle()][0 := Emptied(Line(d0, 0, []))];
    assert l == [Line([], 0, []), Line(d1, 0, []), Idle()];
    assert l[1].out != [];
    assert [Line([], 0, []), Line(d1, 0, []), Idle()][1 := Emptied(Line(d1, 0, []))] == From(2, []);
  }

  lemma DealHalf<M(!new), R(!new)>(k0: seq<Line<M>> -> Proc<M, R>, p1: Proc<M, R>, k2: seq<Line<M>> -> Proc<M, R>, d0: seq<M>, d1: seq<M>)
    requires d0 != [] && d1 != []
    ensures Leads(Trio(Take(|d0|, k0), p1, Deal(d0, d1, k2)), Trio(k0(From(2, d0)), p1, Deal([], d1, k2)))
  {
    TakeDone(d0, k0);
    DealSteps(d0, d1, k2);
    MoveTo(Trio(Take(|d0|, k0), p1, Deal(d0, d1, k2)), 2, 0, d0, Trio(k0(From(2, d0)), p1, Deal([], d1, k2)));
  }

  lemma DealRest<M(!new), R(!new)>(p0: Proc<M, R>, k1: seq<Line<M>> -> Proc<M, R>, k2: seq<Line<M>> -> Proc<M, R>, d1: seq<M>)
    requires d1 != []
    ensures Leads(Trio(p0, Take(|d1|, k1), Deal([], d1, k2)), Trio(p0, k1(From(2, d1)), k2(From(2, []))))
  {
    TakeDone(d1, k1);
    DealSteps([], d1, k2);
    MoveTo(Trio(p0, Take(|d1|, k1), Deal([], d1, k2)), 2, 1, d1, Trio(p0, k1(From(2, d1)), k2(From(2, []))));
  }

  /** A deal round: both workers go on with their material, P2 with nothing received. */
  lemma DealRound<M(!new), R(!new)>(k0: seq<Line<M>> -> Proc<M, R>, k1: seq<Line<M>> -> Proc<M, R>, k2: seq<Line<M>> -> Proc<M, R>, d0: seq<M>, d1: seq<M>)
    requires d0 != [] && d1 != []
    ensures Leads(Trio(Take(|d0|, k0), Take(|d1|, k1), Deal(d0, d1, k2)), Trio(k0(From(2, d0)), k1(From(2, d1)), k2(From(2, []))))
  {
    var p0 := k0(From(2, d0));
    DealHalf(k0, Take(|d1|, k1), k2, d0, d1);
    DealRest(p0, k1, k2, d1);
    LeadsJoin(Trio(Take(|d0|, k0), Take(|d1|, k1), Deal(d0, d1, k2)), Trio(p0, Take(|d1|, k1), Deal([], d1, k2)),
              Trio(p0, k1(From(2, d1)), k2(From(2, []))));
  }

  /** Worker 1 once worker 0's messages are there and its own are not yet sent. */
  function Halfway<M, R>(a: seq<M>, b: seq<M>, k: seq<Line<M>> -> Proc<M, R>): Proc<M, R> {
    Await([Line(b, 0, a), Idle(), Idle()], k)
  }

  lemma SwapFirst<M, R>(a: seq<M>, b: seq<M>, k0: seq<Line<M>> -> Proc<M, R>, k1: seq<Line<M>> -> Proc<M, R>)
    requires a != [] && b != []
    ensures Sent(Swap(0, a, |b|, k0), 1) == Swap(0, [], |b|, k0) && Received(Swap(1, b, |a|, k1), 0, a) == Halfway(a, b, k1)
  {
    assert [] + a == a;
    var l1 := [Line(b, |a|, []), Idle(), Idle()][0 := Filled(Line(b, |a|, []), a)];
    assert l1 == [Line(b, 0, a), Idle(), Idle()] && l1[0].out != [];
    var l0 := [Idle(), Line(a, |b|, []), Idle()][1 := Emptied(Line(a, |b|, []))];
    assert l0 == [Idle(), Line([], |b|, []), Idle()] && l0[1].need != 0;
  }

  lemma SwapSecond<M, R>(a: seq<M>, b: seq<M>, k0: seq<Line<M>> -> Proc<M, R>, k1: seq<Line<M>> -> Proc<M, R>)
    ensures Received(Swap(0, [], |b|, k0), 1, b) == k0(From(1, b)) && Sent(Halfway(a, b, k1), 0) == k1(From(0, a))
  {
    assert [] + b == b;
    assert [Idle(), Line([], |b|, []), Idle()][1 := Filled(Line([], |b|, []), b)] == From(1, b);
    assert [Line(b, 0, a), Idle(), Idle()][0 := Emptied(Line(b, 0, a))] == From(0, a);
  }

  lemma SwapHalf<M(!new), R(!new)>(k0: seq<Line<M>> -> Proc<M, R>, k1: seq<Line<M>> -> Proc<M, R>, p2: Proc<M, R>, a: seq<M>, b: seq<M>)
    requires a != [] && b != []
    ensures Leads(Trio(Swap(0, a, |b|, k0), Swap(1, b, |a|, k1), p2), Trio(Swap(0, [], |b|, k0), Halfway(a, b, k1), p2))
  {
    SwapFirst(a, b, k0, k1);
    MoveTo(Trio(Swap(0, a, |b|, k0), Swap(1, b, |a|, k1), p2), 0, 1, a, Trio(Swap(0, [], |b|, k0), Halfway(a, b, k1), p2));
  }

  lemma SwapRest<M(!new), R(!new)>(k0: seq<Line<M>> -> Proc<M, R>, k1: seq<Line<M>> -> Proc<M, R>, p2: Proc<M, R>, a: seq<M>, b: seq<M>)
    requires b != []
    ensures Leads(Trio(Swap(0, [], |b|, k0), Halfway(a, b, k1), p2), Trio(k0(From(1, b)), k1(From(0, a)), p2))
  {
    SwapSecond(a, b, k0, k1);
    MoveTo(Trio(Swap(0, [], |b|, k0), Halfway(a, b, k1), p2), 1, 0, b, Trio(k0(From(1, b)), k1(From(0, a)), p2));
  }

  /** An exchange round: each worker goes on with what the other sent. */
  lemma SwapRound<M(!new), R(!new)>(k0: seq<Line<M>> -> Proc<M, R>, k1: seq<Line<M>> -> Proc<M, R>, p2: Proc<M, R>, a: seq<M>, b: seq<M>)
    requires a != [] && b != []
    ensures Leads(Trio(Swap(0, a, |b|, k0), Swap(1, b, |a|, k1), p2), Trio(k0(From(1, b)), k1(From(0, a)), p2))
  {
    SwapHalf(k0, k1, p2, a, b);
    SwapRest(k0, k1, p2, a, b);
    LeadsJoin(Trio(Swap(0, a, |b|, k0), Swap(1, b, |a|, k1), p2), Trio(Swap(0, [], |b|, k0), Halfway(a, b, k1), p2),
              Trio(k0(From(1, b)), k1(From(0, a)), p2));
  }

  /** The first of several messages goes to a party that waits for one. */
  lemma MoveHead<M(!new), R(!new)>(s: State<M, R>, p: nat, q: nat, m: M, rest: seq<M>, t: State<M, R>)
    requires ThreeParty(s) && p < 3 && q < 3 && p != q && Waits(s.procs[p], q) && Waits(s.procs[q], p)
    requires s.procs[p].lines[q].out == [m] + rest && s.procs[q].lines[p].need == 1 && s.chans[3 * p + q] == []
    requires ThreeParty(t) && t.chans == s.chans && t.procs[3 - p - q] == s.procs[3 - p - q]
    requires t.procs[p] == Resume(s.procs[p].lines[q := Line(rest, s.procs[p].lines[q].need, s.procs[p].lines[q].got)], s.procs[p].k)
    requires t.procs[q] == Received(s.procs[q], p, [m])
    ensures Leads(s, t)
  {
    Cross(s, p, q);
    HeadSent(s.procs[p], q, m, rest);
    LastGot(s.procs[q], p, [m]);
    ThirdParty(s.procs, t.procs, p, q);
    SameState(Crossed(s, p, q), t);
  }

  lemma HeadSent<M, R>(proc: Proc<M, R>, q: nat, m: M, rest: seq<M>)
    requires Waits(proc, q) && proc.lines[q].out == [m] + rest
    ensures proc.lines[q].out[0] == m
    ensures SentOne(proc, q) == Resume(proc.lines[q := Line(rest, proc.lines[q].need, proc.lines[q].got)], proc.k)
  {
    assert ([m] + rest)[1..] == rest;
  }
}
