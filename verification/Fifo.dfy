// Parties that run coroutines over FIFO channels. A coroutine waits on a group of
// sends and receives that proceed concurrently (`co_await (a && b && ...)`), in
// order on each channel; when the whole group is done it continues with what it
// received.
module Fifo {

  /** What a group still has to send to one party, how many messages it still needs from it, and those it got. */
  datatype Line<M> = Line(out: seq<M>, need: nat, got: seq<M>)

  datatype Proc<!M, R> =
    | Done(result: R)
    | Fault
    | Await(lines: seq<Line<M>>, k: seq<Line<M>> -> Proc<M, R>)

  /** `chans[3 * p + q]` holds the messages on their way from `p` to `q`. */
  datatype State<!M, R> = State(procs: seq<Proc<M, R>>, chans: seq<seq<M>>)

  /** One message leaves `p` for `q`, or `p` takes one from `q`. */
  datatype Label = Send(p: nat, q: nat) | Recv(p: nat, q: nat)

  predicate Complete<M>(lines: seq<Line<M>>) {
    forall i :: 0 <= i < |lines| ==> lines[i].out == [] && lines[i].need == 0
  }

  function Resume<M, R>(lines: seq<Line<M>>, k: seq<Line<M>> -> Proc<M, R>): Proc<M, R> {
    if Complete(lines) then k(lines) else Await(lines, k)
  }

  predicate ThreeParty<M, R>(s: State<M, R>) {
    |s.procs| == 3 && |s.chans| == 9
  }

  /** The channel a step uses. */
  function Chan(a: Label): nat {
    match a
    case Send(p, q) => 3 * p + q
    case Recv(p, q) => 3 * q + p
  }

  /** The pending work of a process towards a party. */
  predicate Waits<M, R>(proc: Proc<M, R>, q: nat) {
    proc.Await? && q < |proc.lines|
  }

  predicate Enabled<M, R>(s: State<M, R>, a: Label) {
    && ThreeParty(s) && a.p < 3 && a.q < 3 && a.p != a.q && Waits(s.procs[a.p], a.q)
    && match a
       case Send(p, q) => s.procs[p].lines[q].out != []
       case Recv(p, q) => s.procs[p].lines[q].need > 0 && s.chans[3 * q + p] != []
  }

  /** The line after a step; `m` is the head of the channel for a receive. */
  function LineStep<M>(line: Line<M>, a: Label, c: seq<M>): Line<M>
    requires if a.Send? then line.out != [] else line.need > 0 && c != []
  {
    if a.Send? then Line(line.out[1..], line.need, line.got) else Line(line.out, line.need - 1, line.got + [c[0]])
  }

  function ChanStep<M>(line: Line<M>, a: Label, c: seq<M>): seq<M>
    requires if a.Send? then line.out != [] else line.need > 0 && c != []
  {
    if a.Send? then c + [line.out[0]] else c[1..]
  }

  function ProcStep<M, R>(proc: Proc<M, R>, a: Label, c: seq<M>): Proc<M, R>
    requires Waits(proc, a.q)
    requires if a.Send? then proc.lines[a.q].out != [] else proc.lines[a.q].need > 0 && c != []
  {
    Resume(proc.lines[a.q := LineStep(proc.lines[a.q], a, c)], proc.k)
  }

  function Do<M, R>(s: State<M, R>, a: Label): State<M, R>
    requires Enabled(s, a)
  {
    var proc, c := s.procs[a.p], s.chans[Chan(a)];
    State(s.procs[a.p := ProcStep(proc, a, c)], s.chans[Chan(a) := ChanStep(proc.lines[a.q], a, c)])
  }

  ghost predicate Commute<M, R>(s: State<M, R>, a: Label, b: Label)
    requires Enabled(s, a) && Enabled(s, b)
  {
    Enabled(Do(s, a), b) && Enabled(Do(s, b), a) && Do(Do(s, a), b) == Do(Do(s, b), a)
  }

  lemma SameState<M, R>(s: State<M, R>, t: State<M, R>)
    requires s.procs == t.procs && s.chans == t.chans
    ensures s == t
  {
  }

  /** A send at one end of a channel and a receive at the other commute. */
  lemma EndsCommute<M>(c: seq<M>, m: M)
    requires c != []
    ensures (c + [m])[1..] == c[1..] + [m] && (c + [m])[0] == c[0]
  {
  }

  lemma Apart(a: Label, b: Label)
    requires a.p < 3 && a.q < 3 && b.p < 3 && b.q < 3 && a.p != a.q && b.p != b.q && a != b
    ensures Chan(a) == Chan(b) ==> a.p != b.p && a.Send? != b.Send?
  {
  }

  /** Steps of different parties commute: they touch different processes, and a shared channel at its two ends. */
  lemma PartiesCommute<M, R>(s: State<M, R>, a: Label, b: Label)
    requires Enabled(s, a) && Enabled(s, b) && a.p != b.p
    ensures Commute(s, a, b)
  {
    var sa, sb := Do(s, a), Do(s, b);
    var pa, pb := s.procs[a.p], s.procs[b.p];
    assert sa.procs[b.p] == pb && sb.procs[a.p] == pa;
    Apart(a, b);
    if Chan(a) == Chan(b) {
      EndsCommute(s.chans[Chan(a)], if a.Send? then pa.lines[a.q].out[0] else pb.lines[b.q].out[0]);
    }
    SameState(Do(sa, b), Do(sb, a));
  }

  /** A group with two pending steps is not completed by either. */
  lemma NotLast<M>(lines: seq<Line<M>>, a: Label, b: Label, ca: seq<M>, cb: seq<M>)
    requires a.q < |lines| && b.q < |lines| && a.p == b.p && a != b
    requires if a.Send? then lines[a.q].out != [] else lines[a.q].need > 0 && ca != []
    requires if b.Send? then lines[b.q].out != [] else lines[b.q].need > 0 && cb != []
    ensures !Complete(lines[a.q := LineStep(lines[a.q], a, ca)])
  {
    var la := lines[a.q := LineStep(lines[a.q], a, ca)];
    assert la[b.q].out != [] || la[b.q].need != 0;
  }

  lemma LinesCommute<M>(lines: seq<Line<M>>, a: Label, b: Label, ca: seq<M>, cb: seq<M>)
    requires a.q < |lines| && b.q < |lines| && a.p == b.p && a != b
    requires if a.Send? then lines[a.q].out != [] else lines[a.q].need > 0 && ca != []
    requires if b.Send? then lines[b.q].out != [] else lines[b.q].need > 0 && cb != []
    ensures var la, lb := lines[a.q := LineStep(lines[a.q], a, ca)], lines[b.q := LineStep(lines[b.q], b, cb)];
            && (if b.Send? then la[b.q].out != [] && la[b.q].out[0] == lines[b.q].out[0] else la[b.q].need > 0)
            && (if a.Send? then lb[a.q].out != [] && lb[a.q].out[0] == lines[a.q].out[0] else lb[a.q].need > 0)
            && la[b.q := LineStep(la[b.q], b, cb)] == lb[a.q := LineStep(lb[a.q], a, ca)]
  {
  }

  /** Two pending steps of one party commute, and neither completes the group before the other. */
  lemma StepsCommute<M, R>(s: State<M, R>, a: Label, b: Label)
    requires Enabled(s, a) && Enabled(s, b) && a.p == b.p && a != b
    ensures Commute(s, a, b)
  {
    var sa, sb := Do(s, a), Do(s, b);
    var proc, ca, cb := s.procs[a.p], s.chans[Chan(a)], s.chans[Chan(b)];
    var la, lb := proc.lines[a.q := LineStep(proc.lines[a.q], a, ca)], proc.lines[b.q := LineStep(proc.lines[b.q], b, cb)];
    NotLast(proc.lines, a, b, ca, cb);
    NotLast(proc.lines, b, a, cb, ca);
    Apart(a, b);
    LinesCommute(proc.lines, a, b, ca, cb);
    assert sa.procs[a.p] == Await(la, proc.k) && sb.procs[a.p] == Await(lb, proc.k);
    assert sa.chans[Chan(b)] == cb && sb.chans[Chan(a)] == ca;
    SameState(Do(sa, b), Do(sb, a));
  }

  /** The schedule `sched` takes `s` to `t`. */
  ghost predicate Runs<M, R>(s: State<M, R>, sched: seq<Label>, t: State<M, R>)
    decreases |sched|
  {
    if sched == [] then s == t else Enabled(s, sched[0]) && Runs(Do(s, sched[0]), sched[1..], t)
  }

  lemma {:induction false} RunsJoin<M, R>(s: State<M, R>, sched: seq<Label>, t: State<M, R>, sched': seq<Label>, u: State<M, R>)
    requires Runs(s, sched, t) && Runs(t, sched', u)
    ensures Runs(s, sched + sched', u)
    decreases |sched|
  {
    if sched == [] {
      assert sched + sched' == sched';
    } else {
      RunsJoin(Do(s, sched[0]), sched[1..], t, sched', u);
      assert (sched + sched')[0] == sched[0] && (sched + sched')[1..] == sched[1..] + sched';
    }
  }

  /** Every party is done and nothing is on its way. */
  predicate Final<M, R>(s: State<M, R>) {
    && ThreeParty(s)
    && (forall p :: 0 <= p < 3 ==> s.procs[p].Done?)
    && (forall c :: 0 <= c < 9 ==> s.chans[c] == [])
  }

  lemma FinalStops<M, R>(s: State<M, R>, a: Label)
    requires Final(s)
    ensures !Enabled(s, a)
  {
  }

  lemma Diamond<M, R>(s: State<M, R>, a: Label, b: Label)
    requires Enabled(s, a) && Enabled(s, b) && a != b
    ensures Commute(s, a, b)
  {
    if a.p == b.p {
      StepsCommute(s, a, b);
    } else {
      PartiesCommute(s, a, b);
    }
  }

  /** An enabled step can be done first in a run that ends: what remains is one step shorter. */
  lemma {:induction false} DoFirst<M, R>(s: State<M, R>, sched: seq<Label>, f: State<M, R>, a: Label) returns (rest: seq<Label>)
    requires Runs(s, sched, f) && Final(f) && Enabled(s, a)
    ensures |rest| == |sched| - 1 && Runs(Do(s, a), rest, f)
    decreases |sched|
  {
    if sched == [] {
      FinalStops(s, a);
      rest := [];
    } else {
      var b := sched[0];
      if a == b {
        rest := sched[1..];
      } else {
        Diamond(s, a, b);
        var r := DoFirst(Do(s, b), sched[1..], f, a);
        rest := [b] + r;
        assert rest[0] == b && rest[1..] == r;
      }
    }
  }

  /**
   If one schedule takes `s` to a final state, every schedule gets there: none is longer,
   and whatever it has done so far can be completed to the same final state.
   */
  lemma {:induction false} Confluent<M, R>(s: State<M, R>, canon: seq<Label>, f: State<M, R>, sched: seq<Label>, t: State<M, R>)
    returns (rest: seq<Label>)
    requires Runs(s, canon, f) && Final(f) && Runs(s, sched, t)
    ensures |sched| + |rest| == |canon| && Runs(t, rest, f)
    decreases |sched|
  {
    if sched == [] {
      rest := canon;
    } else {
      var canon' := DoFirst(s, canon, f, sched[0]);
      rest := Confluent(Do(s, sched[0]), canon', f, sched[1..], t);
    }
  }

  lemma FaultStays<M, R>(s: State<M, R>, sched: seq<Label>, t: State<M, R>, p: nat)
    requires Runs(s, sched, t) && ThreeParty(s) && p < 3 && s.procs[p].Fault?
    ensures ThreeParty(t) && t.procs[p].Fault?
    decreases |sched|
  {
    if sched != [] {
      FaultStays(Do(s, sched[0]), sched[1..], t, p);
    }
  }

  /** No party is stuck in a fault, and a party still waits only while some step is enabled. */
  ghost predicate Healthy<M, R>(s: State<M, R>, f: State<M, R>) {
    && ThreeParty(s) && (forall p :: 0 <= p < 3 ==> !s.procs[p].Fault?)
    && (s == f || exists a :: Enabled(s, a))
  }

  /** Every state of every schedule is healthy. */
  lemma AllHealthy<M, R>(s: State<M, R>, canon: seq<Label>, f: State<M, R>, sched: seq<Label>, t: State<M, R>)
    requires Runs(s, canon, f) && Final(f) && Runs(s, sched, t)
    ensures |sched| <= |canon| && Healthy(t, f)
    ensures |sched| == |canon| <==> t == f
  {
    var rest := Confluent(s, canon, f, sched, t);
    if rest == [] {
      assert t == f;
    } else {
      assert Enabled(t, rest[0]);
      if t == f {
        FinalStops(t, rest[0]);
      }
    }
    forall p | 0 <= p < 3 ensures !t.procs[p].Fault? {
      if t.procs[p].Fault? {
        FaultStays(t, rest, f, p);
      }
    }
  }
}
