/**
 MAIN and the GUI on one wire, both running the step of `Endpoint`.  A run is any interleaving
 of what the two ends can do; the FIFO between them may hold back any suffix of what was sent.
 */
module TwoBoards {
  import opened Common
  import opened Endpoint

  /** A frame handed to the guest, and the guest time at which it was. */
  datatype Handover = Handover(at: int, frame: Due)

  /**
   `chan[i]` is the wire into end `i`.  `sent[i]` logs the frames end `i` put on the link,
   each with its stamp plus the link's latency; `got[i]` logs what was handed to end `i`.
   */
  datatype System = System(ends: seq<End>, chan: seq<seq<Msg>>, sent: seq<seq<Due>>, got: seq<seq<Handover>>)

  datatype Action = Action(who: nat, act: Act)

  function Start(quantum: int): System {
    var hello := [Other(0)];
    System([Init(BoardLink, quantum), Init(BoardLink, quantum)], [hello, hello], [[], []], [[], []])
  }

  predicate Shaped(s: System) {
    |s.ends| == |s.chan| == |s.sent| == |s.got| == 2
  }

  predicate CanDo(s: System, a: Action) {
    && Shaped(s) && a.who < 2
    && Enabled(s.ends[a.who], a.act)
    && Input(a.act) <= s.chan[a.who]
  }

  function Handovers(now: int, q: seq<Due>): seq<Handover> {
    seq(|q|, i requires 0 <= i < |q| => Handover(now, q[i]))
  }

  function Next(s: System, a: Action): System
    requires CanDo(s, a)
  {
    var i, j := a.who, 1 - a.who;
    var e, o := s.ends[i], Do(s.ends[i], a.act);
    System(
      s.ends[i := o.end],
      s.chan[i := s.chan[i][|Input(a.act)|..]][j := s.chan[j] + o.sent],
      if a.act.Send? && a.act.data != [] then s.sent[i := s.sent[i] + [Due(e.now + e.quantum, a.act.data)]] else s.sent,
      s.got[i := s.got[i] + Handovers(o.end.now, o.handed)])
  }

  predicate CanRun(s: System, run: seq<Action>)
    decreases |run|
  {
    run == [] || (CanDo(s, run[0]) && CanRun(Next(s, run[0]), run[1..]))
  }

  function After(s: System, run: seq<Action>): System
    requires CanRun(s, run)
    decreases |run|
  {
    if run == [] then s else After(Next(s, run[0]), run[1..])
  }

  function Frames(h: seq<Handover>): seq<Due> {
    seq(|h|, i requires 0 <= i < |h| => h[i].frame)
  }

  // ----------------------------------------------------------- the invariant

  /**
   One direction of the link: the promise its reader holds, the messages under way, and the
   exact ledger of frames.  `out` is the promise the writer has given so far.
   */
  ghost predicate Direction(quantum: int, e: End, chan: seq<Msg>, out: int, sent: seq<Due>, got: seq<Handover>) {
    && e.kind == BoardLink && e.quantum == quantum && Inv(e)
    && Flow(BoardLink, e.peerPromise, chan)
    && EndP(BoardLink, e.peerPromise, chan) == out
    && sent == Frames(got) + e.due + Dues(quantum, chan)
    && (forall h | h in got :: h.at == h.frame.due)
  }

  ghost predicate Good(s: System, quantum: int) {
    && Shaped(s)
    && Direction(quantum, s.ends[0], s.chan[0], Outgoing(s.ends[1]), s.sent[1], s.got[0])
    && Direction(quantum, s.ends[1], s.chan[1], Outgoing(s.ends[0]), s.sent[0], s.got[1])
  }

  lemma StartGood(quantum: int)
    requires 2 <= quantum
    ensures Good(Start(quantum), quantum)
  {
    InitKeeps(BoardLink, quantum);
    assert [Other(0)][1..] == [];
    assert Flow(BoardLink, Adv(BoardLink, 0, Other(0)), []);
    OneDue(quantum, Other(0));
    assert [] == Frames([]) + [] + [];
  }

  /** Reading: the ledger moves frames from the wire to the queue and from the queue to the guest. */
  lemma ReaderKeeps(quantum: int, e: End, a: Act, rest: seq<Msg>, out: int, sent: seq<Due>, got: seq<Handover>)
    requires Direction(quantum, e, Input(a) + rest, out, sent, got) && Enabled(e, a)
    ensures Keeps(e, a)
    ensures var o := Do(e, a); Direction(quantum, o.end, rest, out, sent, got + Handovers(o.end.now, o.handed))
  {
    var ms := Input(a);
    FlowConcat(BoardLink, e.peerPromise, ms, rest);
    ActKeeps(e, a);
    DrainAppends(e, ms);
    DuesConcat(quantum, ms, rest);
    hide Inv, Flow, EndP, Dues, Drain, Do, Enabled, Input;
    var o := Do(e, a);
    LedgerMoves(got, o.end.now, o.handed);
    Regroup(Frames(got), e.due, Dues(quantum, ms), Dues(quantum, rest), o.handed, o.end.due);
  }

  lemma Regroup(f: seq<Due>, due: seq<Due>, read: seq<Due>, rest: seq<Due>, handed: seq<Due>, left: seq<Due>)
    requires handed + left == due + read
    ensures f + due + (read + rest) == (f + handed) + left + rest
  {
    assert f + due + (read + rest) == f + (due + read) + rest;
    assert f + (handed + left) + rest == (f + handed) + left + rest;
  }

  lemma LedgerMoves(got: seq<Handover>, now: int, handed: seq<Due>)
    ensures Frames(got + Handovers(now, handed)) == Frames(got) + handed
  {
  }

  /** Writing: what joins the wire keeps every promise made so far. */
  lemma WriterKeeps(quantum: int, e: End, chan: seq<Msg>, out: int, sent: seq<Due>, got: seq<Handover>, ms: seq<Msg>)
    requires Direction(quantum, e, chan, out, sent, got) && Flow(BoardLink, out, ms)
    ensures Direction(quantum, e, chan + ms, EndP(BoardLink, out, ms), sent + Dues(quantum, ms), got)
  {
    FlowConcat(BoardLink, e.peerPromise, chan, ms);
    DuesConcat(quantum, chan, ms);
    hide Inv, Flow, EndP, Dues;
  }

  /** Nothing but `Send` puts a frame on the wire. */
  lemma OnlySendSends(e: End, a: Act)
    ensures Dues(e.quantum, Do(e, a).sent) ==
            if a.Send? && a.data != [] then [Due(e.now + e.quantum, a.data)] else []
  {
    if a.Send? {
      OneDue(e.quantum, Frame(e.now, a.data));
    } else {
      SentTimes(e, a);
      NoFrames(e.quantum, Do(e, a).sent);
    }
  }

  lemma SentTimes(e: End, a: Act)
    requires !a.Send?
    ensures forall m | m in Do(e, a).sent :: m.Time?
  {
    hide Drain, Ripe;
    if a.Step? {
      var x := TakeIn(e, a.ms, a.cpu).end;
      assert Do(e, a).sent == [] + (FirstReport(x).sent + Settle(FirstReport(x).end).sent);
    }
  }

  lemma {:induction false} NoFrames(quantum: int, ms: seq<Msg>)
    requires forall m | m in ms :: m.Time?
    ensures Dues(quantum, ms) == []
    decreases |ms|
  {
    if ms != [] {
      assert ms[0] in ms && forall m | m in ms[1..] :: m in ms;
      NoFrames(quantum, ms[1..]);
    }
  }

  /** Every action of either end keeps both directions of the link. */
  lemma NextGood(s: System, quantum: int, a: Action)
    requires Good(s, quantum) && CanDo(s, a)
    ensures Good(Next(s, a), quantum) && Keeps(s.ends[a.who], a.act)
  {
    hide *;
    var i, j, t := a.who, 1 - a.who, Next(s, a);
    NextFields(s, quantum, a);
    var e, o, ms := s.ends[i], Do(s.ends[i], a.act), Input(a.act);
    var rest := s.chan[i][|ms|..];
    ReaderKeeps(quantum, e, a.act, rest, Outgoing(s.ends[j]), s.sent[j], s.got[i]);
    KeptPromises(e, a.act);
    OnlySendSends(e, a.act);
    DirectionKind(quantum, s.ends[i], s.chan[i], Outgoing(s.ends[j]), s.sent[j], s.got[i]);
    WriterKeeps(quantum, s.ends[j], s.chan[j], Outgoing(e), s.sent[i], s.got[j], o.sent);
    NoneSent(s.sent[i]);
    GoodFrom(t, quantum, i);
  }

  lemma NoneSent(sent: seq<Due>)
    ensures sent + [] == sent
  {
  }

  /** What an action changes, end by end. */
  lemma NextFields(s: System, quantum: int, a: Action)
    requires Good(s, quantum) && CanDo(s, a)
    ensures var i, j, t, e, ms := a.who, 1 - a.who, Next(s, a), s.ends[a.who], Input(a.act);
            var o := Do(e, a.act);
            && i < 2 && Shaped(s) && Shaped(t) && |s.ends| == |s.chan| == |s.sent| == |s.got| == 2
            && |t.ends| == |t.chan| == |t.sent| == |t.got| == 2
            && Enabled(e, a.act) && |ms| <= |s.chan[i]| && s.chan[i] == ms + s.chan[i][|ms|..]
            && Direction(quantum, e, s.chan[i], Outgoing(s.ends[j]), s.sent[j], s.got[i])
            && Direction(quantum, s.ends[j], s.chan[j], Outgoing(e), s.sent[i], s.got[j])
            && t.ends[i] == o.end && t.ends[j] == s.ends[j] && t.sent[j] == s.sent[j] && t.got[j] == s.got[j]
            && t.chan[i] == s.chan[i][|ms|..] && t.chan[j] == s.chan[j] + o.sent
            && t.got[i] == s.got[i] + Handovers(o.end.now, o.handed)
            && t.sent[i] == s.sent[i] + if a.act.Send? && a.act.data != [] then [Due(e.now + e.quantum, a.act.data)] else []
  {
    hide Direction, Do, Enabled, Input, Handovers;
  }

  lemma GoodFrom(s: System, quantum: int, i: nat)
    requires Shaped(s) && i < 2
    requires Direction(quantum, s.ends[i], s.chan[i], Outgoing(s.ends[1 - i]), s.sent[1 - i], s.got[i])
    requires Direction(quantum, s.ends[1 - i], s.chan[1 - i], Outgoing(s.ends[i]), s.sent[i], s.got[1 - i])
    ensures Good(s, quantum)
  {
    hide Direction;
  }

  lemma DirectionKind(quantum: int, e: End, chan: seq<Msg>, out: int, sent: seq<Due>, got: seq<Handover>)
    requires Direction(quantum, e, chan, out, sent, got)
    ensures e.kind == BoardLink && e.quantum == quantum
  {
  }

  lemma KeptPromises(e: End, a: Act)
    requires Keeps(e, a)
    ensures Flow(e.kind, Outgoing(e), Do(e, a).sent)
    ensures EndP(e.kind, Outgoing(e), Do(e, a).sent) == Outgoing(Do(e, a).end)
    ensures e.promised <= Do(e, a).end.promised
  {
  }

  // ------------------------------------------------------- over whole runs

  lemma RunNowhere(s: System)
    ensures CanRun(s, []) && After(s, []) == s
  {
  }

  lemma RunFirst(s: System, run: seq<Action>)
    requires run != []
    ensures CanRun(s, run) <==> CanDo(s, run[0]) && CanRun(Next(s, run[0]), run[1..])
    ensures CanRun(s, run) ==> After(s, run) == After(Next(s, run[0]), run[1..])
  {
    hide CanDo, Next;
  }

  lemma {:induction false} RunGood(s: System, quantum: int, run: seq<Action>)
    requires Good(s, quantum) && CanRun(s, run)
    ensures Good(After(s, run), quantum)
    decreases |run|
  {
    if run != [] {
      NextGood(s, quantum, run[0]);
      RunGood(Next(s, run[0]), quantum, run[1..]);
    }
  }

  /** A state some run from the start leads to. */
  ghost predicate Reachable(s: System, quantum: int) {
    2 <= quantum && exists run :: CanRun(Start(quantum), run) && s == After(Start(quantum), run)
  }

  lemma ReachableGood(s: System, quantum: int)
    requires Reachable(s, quantum)
    ensures Good(s, quantum) && Shaped(s)
  {
    var run :| CanRun(Start(quantum), run) && s == After(Start(quantum), run);
    StartGood(quantum);
    RunGood(Start(quantum), quantum, run);
  }

  /**
   Exact causal delivery.  In every run the frames handed to an end are a prefix of the
   frames the other end sent, in order and unchanged, and each is handed over when the
   receiver's clock stands exactly one quantum past the frame's stamp.
   */
  lemma ExactDelivery(s: System, quantum: int, i: nat)
    requires Reachable(s, quantum) && i < 2
    ensures Shaped(s) && |s.got[i]| <= |s.sent[1 - i]|
    ensures forall k | 0 <= k < |s.got[i]| ::
              s.got[i][k].frame == s.sent[1 - i][k] && s.got[i][k].at == s.sent[1 - i][k].due
  {
    ReachableGood(s, quantum);
    hide Reachable, Direction;
    DirectionDelivers(quantum, s.ends[i], s.chan[i], Outgoing(s.ends[1 - i]), s.sent[1 - i], s.got[i]);
  }

  lemma DirectionDelivers(quantum: int, e: End, chan: seq<Msg>, out: int, sent: seq<Due>, got: seq<Handover>)
    requires Direction(quantum, e, chan, out, sent, got)
    ensures |got| <= |sent| && sent[|got|..] == e.due + Dues(quantum, chan)
    ensures forall k | 0 <= k < |got| :: got[k].frame == sent[k] && got[k].at == sent[k].due
  {
    hide Inv, Flow, EndP, Dues;
    assert sent == Frames(got) + (e.due + Dues(quantum, chan));
    forall k | 0 <= k < |got| ensures got[k].frame == sent[k] && got[k].at == sent[k].due {
      assert got[k] in got && Frames(got)[k] == sent[k];
    }
  }

  /** A frame still under way, on the wire or queued, is never in its receiver's past. */
  lemma NeverInThePast(s: System, quantum: int, i: nat)
    requires Reachable(s, quantum) && i < 2
    ensures Shaped(s) && |s.got[i]| <= |s.sent[1 - i]|
    ensures AllDue(s.sent[1 - i][|s.got[i]|..], s.ends[i].now)
  {
    ReachableGood(s, quantum);
    hide Reachable;
    var e := s.ends[i];
    DirectionDelivers(quantum, e, s.chan[i], Outgoing(s.ends[1 - i]), s.sent[1 - i], s.got[i]);
    DuesLater(quantum, e.peerPromise, s.chan[i]);
    hide Flow, EndP, Dues, Frames, Outgoing;
  }

  lemma {:induction false} DuesLater(quantum: int, p: int, ms: seq<Msg>)
    requires Flow(BoardLink, p, ms)
    ensures AllDue(Dues(quantum, ms), p + quantum)
    decreases |ms|
  {
    if ms != [] {
      DuesLater(quantum, Adv(BoardLink, p, ms[0]), ms[1..]);
    }
  }

  lemma GoodShaped(s: System, quantum: int)
    requires Good(s, quantum)
    ensures Shaped(s) && |s.ends| == 2
  {
    hide Direction;
  }

  lemma {:induction false} PromisesGrow(s: System, quantum: int, run: seq<Action>, i: nat)
    requires Good(s, quantum) && CanRun(s, run) && i < 2
    ensures Shaped(After(s, run)) && s.ends[i].promised <= After(s, run).ends[i].promised
    decreases |run|
  {
    hide *;
    if run == [] {
      RunNowhere(s);
      GoodShaped(s, quantum);
    } else {
      RunFirst(s, run);
      var a, t := run[0], Next(s, run[0]);
      NextFields(s, quantum, a);
      NextGood(s, quantum, a);
      KeptPromises(s.ends[a.who], a.act);
      PromisesGrow(t, quantum, run[1..], i);
    }
  }

  /**
   Promise soundness.  However a run goes on, a frame sent later carries a stamp no earlier
   than any promise its sender has reported, although that promise was computed from the
   peer's promise, which was computed from this end's.
   */
  lemma PromisesKept(s: System, quantum: int, run: seq<Action>, i: nat, data: seq<nat>)
    requires Reachable(s, quantum) && CanRun(s, run) && i < 2
    requires CanDo(After(s, run), Action(i, Send(data)))
    ensures Shaped(s)
    ensures var t := After(s, run).ends[i];
            s.ends[i].promised <= t.promised <= t.now && Do(t, Send(data)).sent == [Frame(t.now, data)]
  {
    ReachableGood(s, quantum);
    PromisesGrow(s, quantum, run, i);
    RunGood(s, quantum, run);
  }

  /** Neither board runs more than a quantum past the other's last report, nor past its clock while it runs. */
  lemma BoundedSkew(s: System, quantum: int, i: nat)
    requires Reachable(s, quantum) && i < 2
    ensures Shaped(s)
    ensures s.ends[i].now <= Max(s.ends[1 - i].promised, s.ends[1 - i].reported) + quantum
    ensures s.ends[1 - i].cpu.Running? ==> s.ends[i].now <= s.ends[1 - i].now + quantum
  {
    ReachableGood(s, quantum);
    hide Reachable;
    GoodEnds(s, quantum, i);
    SkewOf(s.ends[i], s.ends[1 - i], s.chan[i]);
    hide Good, Inv, EndP;
  }

  lemma GoodEnds(s: System, quantum: int, i: nat)
    requires Good(s, quantum) && i < 2
    ensures Shaped(s) && Inv(s.ends[i]) && Inv(s.ends[1 - i])
    ensures s.ends[i].kind == s.ends[1 - i].kind == BoardLink && s.ends[i].quantum == s.ends[1 - i].quantum == quantum
    ensures EndP(BoardLink, s.ends[i].peerPromise, s.chan[i]) == Outgoing(s.ends[1 - i])
    ensures Flow(BoardLink, s.ends[i].peerPromise, s.chan[i])
  {
    hide Inv, Flow, EndP, Dues, Outgoing;
  }

  lemma SkewOf(e: End, f: End, ms: seq<Msg>)
    requires Inv(e) && Inv(f) && e.kind == f.kind == BoardLink && EndP(BoardLink, e.peerPromise, ms) == Outgoing(f)
    ensures e.now <= Max(f.promised, f.reported) + e.quantum
    ensures f.cpu.Running? ==> e.now <= f.now + e.quantum
  {
    assert e.peerPromise <= EndP(BoardLink, e.peerPromise, ms);
    hide EndP, AllDue, Sorted;
  }

  // ---------------------------------------------------------------- progress

  /** When both wait, the end with the lesser clock leaves as soon as it reads what the other sent. */
  lemma LeastClockLeaves(s: System, quantum: int, i: nat, cpu: Cpu)
    requires Reachable(s, quantum) && Shaped(s) && i < 2
    requires s.ends[0].waiting && s.ends[1].waiting && s.ends[i].now <= s.ends[1 - i].now
    requires LegalCpu(cpu, s.ends[i].now)
    ensures CanDo(s, Action(i, Turn(s.chan[i], cpu)))
    ensures !Next(s, Action(i, Turn(s.chan[i], cpu))).ends[i].waiting
  {
    hide *;
    ReachableGood(s, quantum);
    TwoOfEach(s);
    WaitersPromise(s, quantum, i);
    TurnMay(s.ends[i], s.chan[i], cpu);
    TurnLeaves(s.ends[i], s.chan[i], cpu);
    NextEnd(s, Action(i, Turn(s.chan[i], cpu)));
  }

  lemma TwoOfEach(s: System)
    ensures Shaped(s) <==> |s.ends| == |s.chan| == |s.sent| == |s.got| == 2
  {
  }

  lemma TurnMay(e: End, ms: seq<Msg>, cpu: Cpu)
    requires e.waiting && LegalCpu(cpu, e.now)
    ensures Enabled(e, Turn(ms, cpu)) && Input(Turn(ms, cpu)) == ms
  {
  }

  /** An act its end may do on what the wire holds, and what it leaves of the two ends. */
  lemma NextEnd(s: System, a: Action)
    requires Shaped(s) && a.who < 2 && Enabled(s.ends[a.who], a.act) && Input(a.act) <= s.chan[a.who]
    ensures CanDo(s, a) && Shaped(Next(s, a))
    ensures Next(s, a).ends[a.who] == Do(s.ends[a.who], a.act).end && Next(s, a).ends[1 - a.who] == s.ends[1 - a.who]
  {
    hide Do, Enabled, Input, Handovers;
  }

  /** While an end waits, all that is under way from it promises its reader its clock. */
  lemma WaitersPromise(s: System, quantum: int, i: nat)
    requires Good(s, quantum) && i < 2 && s.ends[1 - i].waiting
    ensures Inv(s.ends[i]) && s.ends[i].kind == BoardLink && 0 < s.ends[i].quantum
    ensures Flow(BoardLink, s.ends[i].peerPromise, s.chan[i])
    ensures EndP(BoardLink, s.ends[i].peerPromise, s.chan[i]) == s.ends[1 - i].now
  {
  }

  lemma TurnLeaves(e: End, ms: seq<Msg>, cpu: Cpu)
    requires Inv(e) && e.waiting && LegalCpu(cpu, e.now) && Flow(e.kind, e.peerPromise, ms)
    requires e.now < EndP(e.kind, e.peerPromise, ms) + e.quantum
    ensures !Do(e, Turn(ms, cpu)).end.waiting
  {
    TakeInKeeps(e, ms, cpu);
    hide TakeIn, Flow, EndP, Core, Inv, Drain, AllDue, Promise, Report, Clamped;
  }

  /** No deadlock: in every reachable state some action moves the system. */
  lemma NoDeadlock(s: System, quantum: int) returns (a: Action)
    requires Reachable(s, quantum)
    ensures CanDo(s, a) && Moves(s.ends[a.who], a.act)
  {
    ReachableGood(s, quantum);
    if s.ends[0].waiting && s.ends[1].waiting {
      var i := if s.ends[0].now <= s.ends[1].now then 0 else 1;
      LeastClockLeaves(s, quantum, i, Running);
      a := Action(i, Turn(s.chan[i], Running));
    } else {
      var i := if s.ends[0].waiting then 1 else 0;
      var act := FreeEndMoves(s.ends[i]);
      a := Action(i, act);
    }
  }

  /** The clamp of the source's step is never taken: leaving a step or a wait, a board re-arms strictly in its future. */
  lemma StepsRearm(s: System, quantum: int, a: Action)
    requires Reachable(s, quantum) && CanDo(s, a) && (a.act.Step? || a.act.Turn?) && !Next(s, a).ends[a.who].waiting
    ensures Rearmed(Next(s, a).ends[a.who])
  {
    hide Reachable, Inv, Flow, EndP, Do, Enabled, Input, Rearmed, Outgoing, Direction;
    ReachableGood(s, quantum);
    StepReads(s, quantum, a);
    ActRearms(s.ends[a.who], a.act);
  }

  /** What a board reads keeps the promises of the other. */
  lemma StepReads(s: System, quantum: int, a: Action)
    requires Good(s, quantum) && CanDo(s, a)
    ensures a.who < |s.ends| && Inv(s.ends[a.who]) && Enabled(s.ends[a.who], a.act)
    ensures Flow(s.ends[a.who].kind, s.ends[a.who].peerPromise, Input(a.act))
  {
    var i, rest := a.who, s.chan[a.who][|Input(a.act)|..];
    assert s.chan[i] == Input(a.act) + rest;
    FlowConcat(BoardLink, s.ends[i].peerPromise, Input(a.act), rest);
    hide Inv, Flow, EndP, Do, Enabled, Input, Outgoing;
  }

  // --------------------------------------------------------------- liveness

  function By(i: nat, acts: seq<Act>): (r: seq<Action>)
    ensures |r| == |acts|
  {
    seq(|acts|, k requires 0 <= k < |acts| => Action(i, acts[k]))
  }

  /** What one end can do without reading it can do in the system. */
  lemma {:induction false} ByItself(s: System, i: nat, acts: seq<Act>)
    requires Shaped(s) && i < 2 && CanAll(s.ends[i], acts)
    ensures CanRun(s, By(i, acts)) && Shaped(After(s, By(i, acts)))
    ensures var t := After(s, By(i, acts)); t.ends[i] == DoAll(s.ends[i], acts) && t.ends[1 - i] == s.ends[1 - i]
    decreases |acts|
  {
    if acts != [] {
      var a := Action(i, acts[0]);
      assert By(i, acts)[0] == a && By(i, acts)[1..] == By(i, acts[1..]);
      hide Enabled, Do, Input;
      ByItself(Next(s, a), i, acts[1..]);
    }
  }

  /** What has been sent to the board whose clock is least promises it more than its clock less a quantum. */
  lemma LeastIsPromised(s: System, quantum: int, i: nat)
    requires Good(s, quantum) && i < 2 && s.ends[i].now <= s.ends[1 - i].now
    ensures var e := s.ends[i];
            && Inv(e) && e.kind == BoardLink && Flow(BoardLink, e.peerPromise, s.chan[i])
            && e.now < EndP(BoardLink, e.peerPromise, s.chan[i]) + e.quantum
  {
    GoodEnds(s, quantum, i);
    hide Good, Flow, EndP;
    NotFarAhead(s.ends[1 - i]);
    hide Inv, Outgoing;
  }

  /** A clock is never half a quantum past what its end has promised. */
  lemma NotFarAhead(e: End)
    requires Inv(e)
    ensures e.now <= Outgoing(e) + e.quantum / 2 && 2 <= e.quantum
  {
  }

  /** The board whose clock is least can always be brought to let it go on. */
  lemma LeastAdvances(s: System, quantum: int, i: nat) returns (run: seq<Action>)
    requires Good(s, quantum) && i < 2 && s.ends[i].now <= s.ends[1 - i].now
    ensures CanRun(s, run) && Shaped(After(s, run))
    ensures s.ends[i].now < After(s, run).ends[i].now && s.ends[1 - i].now == After(s, run).ends[1 - i].now
  {
    var e, ms := s.ends[i], s.chan[i];
    assert Shaped(s);
    hide *;
    TwoOfEach(s);
    LeastIsPromised(s, quantum, i);
    if !e.waiting {
      Timely(e);
    }
    if !e.waiting && e.timer.value != e.now {
      run := FreeGoesOn(s, i);
    } else {
      var a := Action(i, CatchUp(e, ms));
      CatchUpFrees(e, ms);
      NextEnd(s, a);
      TwoOfEach(Next(s, a));
      var more := FreeGoesOn(Next(s, a), i);
      run := [a] + more;
      RunOn(s, a, more);
    }
  }

  lemma FreeGoesOn(s: System, i: nat) returns (run: seq<Action>)
    requires Shaped(s) && i < 2 && Inv(s.ends[i]) && !s.ends[i].waiting
    requires s.ends[i].timer.Some? && s.ends[i].now < s.ends[i].timer.value
    ensures CanRun(s, run) && Shaped(After(s, run))
    ensures s.ends[i].now < After(s, run).ends[i].now && s.ends[1 - i] == After(s, run).ends[1 - i]
  {
    hide *;
    TwoOfEach(s);
    var acts := FreeAdvances(s.ends[i]);
    ByItself(s, i, acts);
    run := By(i, acts);
  }

  lemma RunOn(s: System, a: Action, more: seq<Action>)
    requires CanDo(s, a) && CanRun(Next(s, a), more)
    ensures CanRun(s, [a] + more) && After(s, [a] + more) == After(Next(s, a), more)
  {
    assert ([a] + more)[0] == a && ([a] + more)[1..] == more;
    hide Next, CanDo;
  }

  lemma Timely(e: End)
    requires Inv(e) && !e.waiting
    ensures e.timer.Some? && e.now <= e.timer.value
  {
  }

  lemma {:induction false} RunsJoin(s: System, one: seq<Action>, two: seq<Action>)
    requires CanRun(s, one) && CanRun(After(s, one), two)
    ensures CanRun(s, one + two) && After(s, one + two) == After(After(s, one), two)
    decreases |one|
  {
    hide *;
    if one == [] {
      assert one + two == two;
      RunNowhere(s);
    } else {
      assert (one + two)[0] == one[0] && (one + two)[1..] == one[1..] + two;
      RunFirst(s, one);
      RunFirst(s, one + two);
      RunsJoin(Next(s, one[0]), one[1..], two);
    }
  }

  /** How far the clocks lag behind `goal` together. */
  function Lag(s: System, goal: int): nat requires Shaped(s) { Max(0, goal + 1 - s.ends[0].now) + Max(0, goal + 1 - s.ends[1].now) }

  lemma {:induction false} ClocksPass(s: System, quantum: int, goal: int) returns (run: seq<Action>)
    requires Good(s, quantum)
    ensures CanRun(s, run) && Shaped(After(s, run)) && goal < After(s, run).ends[0].now && goal < After(s, run).ends[1].now
    decreases Lag(s, goal)
  {
    if goal < s.ends[0].now && goal < s.ends[1].now {
      run := [];
    } else {
      var i := if s.ends[0].now <= s.ends[1].now then 0 else 1;
      var first := LeastAdvances(s, quantum, i);
      RunGood(s, quantum, first);
      hide Good;
      var rest := ClocksPass(After(s, first), quantum, goal);
      RunsJoin(s, first, rest);
      run := first + rest;
    }
  }

  /** Liveness: from every reachable state, and for every guest time, some run brings both clocks past it. */
  lemma TimeGoesOn(s: System, quantum: int, goal: int) returns (run: seq<Action>)
    requires Reachable(s, quantum)
    ensures CanRun(s, run) && Shaped(After(s, run)) && forall i | 0 <= i < 2 :: goal < After(s, run).ends[i].now
  {
    hide *;
    ReachableGood(s, quantum);
    run := ClocksPass(s, quantum, goal);
    assert Shaped(After(s, run));
  }
}
