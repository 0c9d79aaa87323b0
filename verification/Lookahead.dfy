/**
 The lookahead of the step: what an end promises is exactly the earliest guest time at which
 it could send anything, whatever its peer goes on to send it.
 */
module Lookahead {
  import opened Common
  import opened Endpoint
  import T = TwoBoards

  /** A sleeping guest is woken by its device timer or by a frame handed to it, and by nothing else. */
  predicate Plausible(e: End, a: Act) {
    (a.Step? || a.Turn?) && e.cpu.Halted? && Do(e, a).handed == [] ==> a.cpu == e.cpu
  }

  /** One way things may go on at this end: the peer keeps its promises, and only what can wake the guest does. */
  ghost predicate Future(e: End, acts: seq<Act>)
    decreases |acts|
  {
    acts == [] ||
    (Enabled(e, acts[0]) && Flow(e.kind, e.peerPromise, Input(acts[0])) && Plausible(e, acts[0])
     && Future(Do(e, acts[0]).end, acts[1..]))
  }

  function Later(e: End, acts: seq<Act>): End
    decreases |acts|
  {
    if acts == [] then e else Later(Do(e, acts[0]).end, acts[1..])
  }

  lemma FutureFirst(e: End, acts: seq<Act>)
    requires acts != []
    ensures var r := Do(e, acts[0]).end;
            && (Future(e, acts) <==> Enabled(e, acts[0]) && Flow(e.kind, e.peerPromise, Input(acts[0])) && Plausible(e, acts[0])
                                     && Future(r, acts[1..]))
            && Later(e, acts) == Later(r, acts[1..])
  {
    hide Enabled, Flow, Plausible, Do;
  }

  lemma FutureNone(e: End)
    ensures Future(e, []) && Later(e, []) == e
  {
  }

  lemma {:induction false} FuturesJoin(e: End, a: seq<Act>, b: seq<Act>)
    ensures Future(e, a + b) <==> Future(e, a) && Future(Later(e, a), b)
    ensures Later(e, a + b) == Later(Later(e, a), b)
    decreases |a|
  {
    hide *;
    if a == [] {
      assert a + b == b;
      FutureNone(e);
    } else {
      FutureFirst(e, a);
      FutureFirst(e, a + b);
      assert (a + b)[0] == a[0] && (a + b)[1..] == a[1..] + b;
      FuturesJoin(Do(e, a[0]).end, a[1..], b);
    }
  }

  lemma FutureOne(e: End, a: Act)
    requires Enabled(e, a) && Flow(e.kind, e.peerPromise, Input(a)) && Plausible(e, a)
    ensures Future(e, [a]) && Later(e, [a]) == Do(e, a).end
  {
    hide *;
    FutureFirst(e, [a]);
    assert [a][1..] == [];
    FutureNone(Do(e, a).end);
  }

  // --------------------------------------------------------------- soundness

  /** Time `p` has come, or the guest sleeps and nothing that is known can wake it before `p`. */
  ghost predicate NotBefore(e: End, p: int) {
    e.now >= p ||
    (e.cpu.Halted? && p <= e.peerPromise + e.quantum && AllDue(e.due, p)
     && (e.cpu.deadline.Some? ==> p <= e.cpu.deadline.value))
  }

  lemma PromiseNotBefore(e: End)
    requires Inv(e)
    ensures NotBefore(e, Promise(e))
  {
    if e.cpu.Halted? && e.due != [] {
      assert forall d | d in e.due :: e.due[0].due <= d.due;
    }
  }

  lemma ActNotBefore(e: End, a: Act, p: int)
    requires Inv(e) && NotBefore(e, p) && Enabled(e, a) && Flow(e.kind, e.peerPromise, Input(a)) && Plausible(e, a)
    ensures NotBefore(Do(e, a).end, p)
  {
    if a.Step? || a.Turn? {
      StepNotBefore(e, a, p);
    }
    hide Core, AllDue, Flow;
  }

  lemma StepNotBefore(e: End, a: Act, p: int)
    requires Inv(e) && NotBefore(e, p) && Enabled(e, a) && Flow(e.kind, e.peerPromise, Input(a)) && Plausible(e, a)
    requires a.Step? || a.Turn?
    ensures NotBefore(Do(e, a).end, p)
  {
    hide *;
    var x, r := TakeIn(e, a.ms, a.cpu), Do(e, a);
    TakenIn(e, a);
    if e.now >= p {
      Comes(r.end, p);
    } else {
      StepParts(e, a, p);
      TakeInKeeps(e, a.ms, a.cpu);
      DrainKeeps(e, a.ms, p);
      if x.handed != [] {
        HandedDue(x.handed, x.end.due, e.now, p);
      } else {
        assert x.handed + x.end.due == x.end.due;
        Sleeps(e, a, p);
      }
    }
  }

  lemma Comes(e: End, p: int)
    requires e.now >= p
    ensures NotBefore(e, p)
  {
  }

  lemma StepParts(e: End, a: Act, p: int)
    requires Inv(e) && NotBefore(e, p) && e.now < p && Enabled(e, a) && Flow(e.kind, e.peerPromise, Input(a))
    requires a.Step? || a.Turn?
    ensures Core(e) && AllDue(e.due, e.now) && e.promised <= e.now && LegalCpu(a.cpu, e.now)
    ensures AllDue(e.due, p) && p <= e.peerPromise + e.quantum && Flow(e.kind, e.peerPromise, a.ms)
  {
    hide Core, Flow;
  }

  lemma Sleeps(e: End, a: Act, p: int)
    requires NotBefore(e, p) && e.now < p && (a.Step? || a.Turn?) && Plausible(e, a) && Do(e, a).handed == []
    requires var r := Do(e, a).end;
             r.now == e.now && r.cpu == a.cpu && p <= r.peerPromise + r.quantum && AllDue(r.due, p)
    ensures NotBefore(Do(e, a).end, p)
  {
    hide Do, AllDue;
  }

  lemma HandedDue(handed: seq<Due>, rest: seq<Due>, now: int, p: int)
    requires handed != [] && (forall d | d in handed :: d.due == now) && AllDue(handed + rest, p)
    ensures p <= now
  {
    assert handed[0] in handed + rest;
  }

  /** After the hand-over a step touches its reports and its timer only. */
  lemma TakenIn(e: End, a: Act)
    requires a.Step? || a.Turn?
    ensures var x, r := TakeIn(e, a.ms, a.cpu), Do(e, a);
            && r.handed == x.handed && r.sent == (if a.Step? then Proceed(x.end).sent else Settle(x.end).sent)
            && r.end == (if a.Step? then Proceed(x.end).end else Settle(x.end).end)
            && r.end.now == x.end.now && r.end.cpu == x.end.cpu && r.end.due == x.end.due
            && r.end.peerPromise == x.end.peerPromise && r.end.quantum == x.end.quantum && r.end.kind == x.end.kind
            && x.end.now == e.now && x.end.cpu == a.cpu && x.end.quantum == e.quantum && x.end.kind == e.kind
            && x.end.reported == e.reported && x.end.promised == e.promised
            && (r.end.waiting <==> x.end.now >= x.end.peerPromise + x.end.quantum)
  {
    DrainPromises(e, a.ms);
    SettleTouches(TakeIn(e, a.ms, a.cpu).end);
    ProceedTouches(TakeIn(e, a.ms, a.cpu).end);
    var x := TakeIn(e, a.ms, a.cpu);
    hide Drain, Promise, Ripe, Settle, Proceed;
    assert [] + Settle(x.end).sent == Settle(x.end).sent && x.handed + [] == x.handed;
    assert [] + Proceed(x.end).sent == Proceed(x.end).sent;
  }

  lemma SettleTouches(e: End)
    ensures var r := Settle(e);
            && r.handed == [] && (r.end.waiting <==> e.now >= e.peerPromise + e.quantum)
            && r.end == e.(reported := r.end.reported, promised := r.end.promised, waiting := r.end.waiting, timer := r.end.timer)
  {
    hide Promise, Clamped;
  }

  lemma ProceedTouches(e: End)
    ensures var r := Proceed(e);
            && r.handed == [] && (r.end.waiting <==> e.now >= e.peerPromise + e.quantum)
            && r.end == e.(reported := r.end.reported, promised := r.end.promised, waiting := r.end.waiting, timer := r.end.timer)
  {
    SettleTouches(FirstReport(e).end);
    hide Promise, Settle;
  }

  lemma {:induction false} FutureNotBefore(e: End, acts: seq<Act>, p: int)
    requires Inv(e) && NotBefore(e, p) && Future(e, acts)
    ensures Inv(Later(e, acts)) && NotBefore(Later(e, acts), p)
    decreases |acts|
  {
    hide *;
    if acts == [] {
      FutureNone(e);
    } else {
      FutureFirst(e, acts);
      ActKeeps(e, acts[0]);
      KeepsInv(e, acts[0]);
      ActNotBefore(e, acts[0], p);
      FutureNotBefore(Do(e, acts[0]).end, acts[1..], p);
    }
  }

  lemma KeepsInv(e: End, a: Act)
    requires Keeps(e, a)
    ensures Inv(Do(e, a).end)
  {
  }

  /** Sound: whatever happens from here on, nothing is sent before what the end promises now. */
  lemma PromiseIsSound(e: End, acts: seq<Act>, data: seq<nat>)
    requires Inv(e) && Future(e, acts + [Send(data)])
    ensures Promise(e) <= Later(e, acts).now
  {
    PromiseNotBefore(e);
    FuturesJoin(e, acts, [Send(data)]);
    FutureNotBefore(e, acts, Promise(e));
    var r := Later(e, acts);
    hide Promise, Later, Inv;
    assert Enabled(r, Send(data)) by { FutureFirst(r, [Send(data)]); }
    hide Future;
  }

  // --------------------------------------------------------------- tightness

  /** A frame stamped as early as the peer's promise allows, and a promise that lets the end go on. */
  function Nudge(e: End): seq<Msg> { [Frame(e.peerPromise, [0]), Time(e.peerPromise, e.peerPromise + 1)] }

  lemma NudgeFlows(e: End)
    ensures Flow(e.kind, e.peerPromise, Nudge(e)) && EndP(e.kind, e.peerPromise, Nudge(e)) == e.peerPromise + 1
    ensures var f := Parse(e, Frame(e.peerPromise, [0])); Drain(e, Nudge(e)) == Parse(f, Time(e.peerPromise, e.peerPromise + 1))
  {
    var one, two := Frame(e.peerPromise, [0]), Time(e.peerPromise, e.peerPromise + 1);
    assert Nudge(e)[1..] == [two] && [two][1..] == [];
    var p := Adv(e.kind, e.peerPromise, one);
    assert p == e.peerPromise && Adv(e.kind, p, two) == e.peerPromise + 1;
    assert Flow(e.kind, e.peerPromise + 1, []) && Flow(e.kind, p, [two]);
    assert EndP(e.kind, p, [two]) == EndP(e.kind, e.peerPromise + 1, []) == e.peerPromise + 1;
    var f := Parse(e, one);
    assert Drain(f, [two]) == Drain(Parse(f, two), []) == Parse(f, two);
  }

  lemma NudgeQueues(e: End)
    requires Core(e)
    ensures var q := Drain(e, Nudge(e)).due;
            Due(e.peerPromise + e.quantum, [0]) in q && forall d | d in e.due :: d in q
  {
    assert Sorted(e.due);
    hide *;
    var d := Due(e.peerPromise + e.quantum, [0]);
    NudgeFlows(e);
    NudgeDue(e);
    InsertDueSorted(e.due, d);
  }

  lemma NudgeDue(e: End)
    ensures var d, f := Due(e.peerPromise + e.quantum, [0]), Parse(e, Frame(e.peerPromise, [0]));
            Parse(f, Time(e.peerPromise, e.peerPromise + 1)).due == if e.kind == BoardLink then e.due + [d] else InsertDue(e.due, d)
  {
    hide InsertDue;
  }

  /** The step that is due, or a turn of the wait, that reads the nudge and lets the guest run. */
  function Wake(e: End): Act { if e.waiting then Turn(Nudge(e), Running) else Step(Nudge(e), Running) }

  lemma WakeFrees(e: End)
    requires Inv(e) && (e.waiting || e.timer.value == e.now)
    requires e.peerPromise + e.quantum == e.now || (exists d | d in e.due :: d.due == e.now) || e.cpu.Running?
    ensures var r := Do(e, Wake(e)).end;
            Future(e, [Wake(e)]) && Later(e, [Wake(e)]) == r && r.now == e.now && r.cpu == Running && !r.waiting
  {
    var a, x := Wake(e), TakeIn(e, Nudge(e), Running);
    WakeMay(e);
    assert 2 <= e.quantum;
    hide *;
    NudgeFlows(e);
    NudgeQueues(e);
    TakenIn(e, a);
    TakeInKeeps(e, Nudge(e), Running);
    if e.cpu.Halted? {
      var d := if e.peerPromise + e.quantum == e.now then Due(e.peerPromise + e.quantum, [0]) else (var d :| d in e.due && d.due == e.now; d);
      SomethingHanded(x.handed, x.end.due, d, e.now);
    }
    WakePlausible(e, a);
    FutureOne(e, a);
    WakeRuns(e);
  }

  lemma WakeMay(e: End)
    requires Inv(e) && (e.waiting || e.timer.value == e.now)
    ensures Core(e) && AllDue(e.due, e.now) && e.promised <= e.now && LegalCpu(Running, e.now) && e.now <= e.peerPromise + e.quantum
    ensures Enabled(e, Wake(e)) && Input(Wake(e)) == Nudge(e)
  {
    hide Sorted, AllDue, Nudge;
    assert e.waiting ==> AllDue(e.due, e.now + 1);
    assert AllDue(e.due, e.now);
  }

  lemma WakeRuns(e: End)
    ensures Wake(e).cpu == Running && Wake(e).ms == Nudge(e) && (Wake(e).Step? || Wake(e).Turn?)
  {
  }

  lemma WakePlausible(e: End, a: Act)
    requires e.cpu.Halted? ==> Do(e, a).handed != []
    ensures Plausible(e, a)
  {
    hide Do;
  }

  lemma SomethingHanded(handed: seq<Due>, rest: seq<Due>, d: Due, now: int)
    requires d in handed + rest && d.due == now && AllDue(rest, now + 1)
    ensures handed != []
  {
    assert handed == [] ==> d in rest;
  }

  /** An end that promises nothing beyond now can send now. */
  lemma SendsNow(e: End, data: seq<nat>) returns (acts: seq<Act>)
    requires Inv(e) && Promise(e) == e.now
    ensures Future(e, acts + [Send(data)]) && Later(e, acts).now == e.now
  {
    if !e.waiting && e.cpu.Running? {
      acts := [];
      FutureNone(e);
    } else if !e.waiting && e.cpu == Halted(Some(e.now)) {
      acts := [Fire(Running)];
      FutureOne(e, Fire(Running)) by { assert Flow(e.kind, e.peerPromise, []); }
    } else {
      acts := [Wake(e)];
      Stuck(e);
      WakeFrees(e);
    }
    var r := Later(e, acts);
    assert !r.waiting && r.cpu.Running? && r.now == e.now;
    hide Later, Future, Inv, Promise, Wake;
    SendMay(r, data);
    FuturesJoin(e, acts, [Send(data)]);
  }

  lemma SendMay(e: End, data: seq<nat>)
    requires !e.waiting && e.cpu.Running?
    ensures Future(e, [Send(data)])
  {
    assert Flow(e.kind, e.peerPromise, []);
    FutureOne(e, Send(data));
  }

  /** What holds a sleeping end back at its promise is a frame due now, or the peer. */
  lemma Stuck(e: End)
    requires Inv(e) && Promise(e) == e.now && (e.waiting || (e.cpu.Halted? && e.cpu != Halted(Some(e.now))))
    ensures e.waiting || e.timer.value == e.now
    ensures e.peerPromise + e.quantum == e.now || exists d | d in e.due :: d.due == e.now
  {
    if !e.waiting && e.due != [] {
      assert e.due[0] in e.due;
    }
  }

  /** A sleeping end can run, step by step and reading nothing, up to what it promises. */
  lemma {:induction false} RunsToPromise(e: End) returns (acts: seq<Act>)
    requires Inv(e) && !e.waiting && e.cpu.Halted?
    ensures var r := Later(e, acts);
            Future(e, acts) && Inv(r) && r.now == Promise(e) && Promise(r) == r.now
    decreases Promise(e) - e.now, if e.timer == Some(e.now) then 1 else 0
  {
    var p := Promise(e);
    assert e.timer.Some? && e.now <= e.timer.value && e.now <= p;
    hide *;
    if e.now == p {
      acts := [];
      FutureNone(e);
    } else if e.timer.value == e.now {
      StepsOn(e);
      var a := Step([], e.cpu);
      var rest := RunsToPromise(Do(e, a).end);
      acts := [a] + rest;
      FutureOne(e, a);
      FuturesJoin(e, [a], rest);
    } else {
      var to := if e.timer.value < p then e.timer.value else p;
      RunsOn(e, to);
      var rest := RunsToPromise(Do(e, Run(to)).end);
      acts := [Run(to)] + rest;
      FutureOne(e, Run(to));
      FuturesJoin(e, [Run(to)], rest);
    }
  }

  lemma RunsOn(e: End, to: int)
    requires Inv(e) && !e.waiting && e.cpu.Halted? && e.now < to <= Promise(e) && to <= e.timer.value
    ensures var a, r := Run(to), Do(e, Run(to)).end;
            && Enabled(e, a) && Flow(e.kind, e.peerPromise, Input(a)) && Plausible(e, a)
            && Inv(r) && !r.waiting && r.cpu.Halted? && r.now == to && Promise(r) == Promise(e)
  {
    NoInput(e);
    RunsTo(e, to);
    KeptInv(e, Run(to));
    hide Inv, AllDue, Sorted, Flow, Promise;
  }

  lemma NoInput(e: End)
    ensures Flow(e.kind, e.peerPromise, [])
  {
  }

  lemma RunsTo(e: End, to: int)
    requires Inv(e) && !e.waiting && e.cpu.Halted? && e.now < to <= Promise(e) && to <= e.timer.value
    ensures Enabled(e, Run(to)) && Promise(e.(now := to)) == Promise(e)
  {
    hide AllDue, Sorted;
  }

  lemma KeptInv(e: End, a: Act)
    requires Inv(e) && Enabled(e, a) && Flow(e.kind, e.peerPromise, Input(a))
    ensures Inv(Do(e, a).end)
  {
    ActKeeps(e, a);
    hide Inv, Enabled, Flow, Do;
  }

  lemma StepsOn(e: End)
    requires Inv(e) && !e.waiting && e.cpu.Halted? && e.now < Promise(e) && e.timer.value == e.now
    ensures var a, r := Step([], e.cpu), Do(e, Step([], e.cpu)).end;
            && Enabled(e, a) && Flow(e.kind, e.peerPromise, Input(a)) && Plausible(e, a)
            && Inv(r) && !r.waiting && r.cpu.Halted? && r.now == e.now && Promise(r) == Promise(e) && r.timer != Some(r.now)
  {
    var a := Step([], e.cpu);
    StepMay(e);
    hide *;
    ActKeeps(e, a);
    KeepsInv(e, a);
    ActRearms(e, a);
    TakenIn(e, a);
    NothingRipe(e);
    var r := Do(e, a).end;
    StepLeaves(a, Do(e, a));
    PromiseLooks(e, r);
    WakelessPlausible(e, a);
  }

  lemma StepMay(e: End)
    requires Inv(e) && !e.waiting && e.cpu.Halted? && e.now < Promise(e) && e.timer.value == e.now
    ensures var a := Step([], e.cpu); Enabled(e, a) && Flow(e.kind, e.peerPromise, Input(a)) && Input(a) == []
    ensures Core(e) && e.now < e.peerPromise + e.quantum
  {
    hide AllDue, Sorted;
  }

  lemma StepLeaves(a: Act, o: Outcome)
    requires Leaves(a, o) && a.Step? && !o.end.waiting
    ensures o.end.timer != Some(o.end.now)
  {
    hide Next;
  }

  /** What a promise depends on. */
  lemma PromiseLooks(e: End, r: End)
    requires r.now == e.now && r.peerPromise == e.peerPromise && r.quantum == e.quantum && r.due == e.due && r.cpu == e.cpu
    ensures Promise(r) == Promise(e)
  {
  }

  lemma WakelessPlausible(e: End, a: Act)
    requires a.Step? && a.cpu == e.cpu
    ensures Plausible(e, a)
  {
    hide Do;
  }

  lemma NothingRipe(e: End)
    requires Core(e) && e.cpu.Halted? && e.now < Promise(e)
    ensures var x := TakeIn(e, [], e.cpu); x.end == e && x.handed == []
  {
    assert Drain(e, []) == e;
    assert Ripe(e.due, e.now) == 0;
    assert e.due[0..] == e.due;
  }

  /**
   Tight: some way of going on, on which the peer keeps its promises, makes the end send a
   frame stamped exactly what it promises now.
   */
  lemma PromiseIsTight(e: End, data: seq<nat>) returns (acts: seq<Act>)
    requires Inv(e)
    ensures Future(e, acts + [Send(data)]) && Later(e, acts).now == Promise(e)
  {
    if e.waiting || e.cpu.Running? {
      assert Promise(e) == e.now;
      acts := SendsNow(e, data);
    } else {
      var first := RunsToPromise(e);
      var r := Later(e, first);
      hide *;
      var rest := SendsNow(r, data);
      FuturesJoin(e, first, rest + [Send(data)]);
      FuturesJoin(e, first, rest);
      acts := first + rest;
      assert first + (rest + [Send(data)]) == acts + [Send(data)];
    }
  }

  /**
   The promise is the greatest sound one: a time is a lower bound of all that the end may yet
   send, whatever happens, if and only if it is at most the promise.
   */
  lemma PromiseIsGreatest(e: End, t: int, data: seq<nat>)
    requires Inv(e)
    ensures (forall acts | Future(e, acts + [Send(data)]) :: t <= Later(e, acts).now) <==> t <= Promise(e)
  {
    hide *;
    forall acts | Future(e, acts + [Send(data)]) ensures Promise(e) <= Later(e, acts).now {
      PromiseIsSound(e, acts, data);
    }
    var acts := PromiseIsTight(e, data);
  }

  // ------------------------------------------------------------- the reports

  /** What a step sent: nothing, and nothing is changed of what was said; or one report of the clock and the promise that now stands. */
  ghost predicate Reports(e: End, r: Outcome) {
    if r.sent == [] then r.end.reported == e.reported && r.end.promised == e.promised
    else r.sent == [Time(e.now, Promise(r.end))] && r.end.reported == e.now && r.end.promised == Promise(r.end)
  }

  lemma PromiseOf(e: End, reported: int, promised: int, waiting: bool, timer: Option<int>)
    ensures Promise(e.(reported := reported, promised := promised, waiting := waiting, timer := timer)) == Promise(e)
  {
  }

  lemma SettleReports(e: End)
    requires e.reported <= e.now
    ensures Reports(e, Settle(e))
    ensures e.reported == e.now && e.promised == Promise(e) ==> Settle(e).sent == []
  {
    var r := Settle(e).end;
    SettleTouches(e);
    PromiseOf(e, r.reported, r.promised, r.waiting, r.timer);
    hide Promise, Clamped;
  }

  lemma ProceedReports(e: End)
    requires e.reported <= e.now
    ensures Reports(e, Proceed(e))
  {
    var f, r := FirstReport(e), Proceed(e).end;
    ProceedTouches(e);
    PromiseOf(e, r.reported, r.promised, r.waiting, r.timer);
    PromiseOf(e, f.end.reported, f.end.promised, f.end.waiting, f.end.timer);
    assert f.end == e.(reported := f.end.reported, promised := f.end.promised) by { hide Promise, Settle; }
    SettleReports(f.end);
    hide Promise, Settle;
  }

  /** A step or a turn sends at most one report, of its own clock and of the promise it then stands by. */
  lemma OneReport(e: End, a: Act)
    requires Inv(e) && (a.Step? || a.Turn?)
    ensures Reports(e, Do(e, a))
  {
    hide *;
    TakenIn(e, a);
    InvReported(e);
    var x := TakeIn(e, a.ms, a.cpu).end;
    if a.Step? {
      ProceedReports(x);
      SameReports(e, x, Proceed(x), Do(e, a));
    } else {
      SettleReports(x);
      SameReports(e, x, Settle(x), Do(e, a));
    }
  }

  lemma InvReported(e: End)
    requires Inv(e)
    ensures e.reported <= e.now
  {
    hide AllDue;
  }

  lemma SameReports(e: End, x: End, p: Outcome, r: Outcome)
    requires Reports(x, p) && r.sent == p.sent && r.end == p.end && x.now == e.now && x.reported == e.reported && x.promised == e.promised
    ensures Reports(e, r)
  {
    hide Promise;
  }

  /** An end that waits and learns nothing says nothing and stays as it is. */
  lemma QuietTurn(e: End)
    requires Inv(e) && e.waiting
    ensures Do(e, Turn([], e.cpu)) == Outcome(e, [], [])
  {
    assert Ripe(e.due, e.now) == 0;
    assert Promise(e) == e.now;
    assert e.due[0..] == e.due && e.due[..0] == [];
    hide AllDue, Ripe, Promise;
  }

  // ------------------------------------------------- two boards that both idle

  /** A board asleep with no timer of its own and nothing queued. */
  ghost predicate Idle(e: End) {
    e.kind == BoardLink && Inv(e) && e.cpu == Halted(None) && e.due == []
  }

  /** Both boards idle, with no frame under way between them. */
  ghost predicate Resting(s: T.System, quantum: int) {
    && T.Good(s, quantum) && Idle(s.ends[0]) && Idle(s.ends[1])
    && Dues(quantum, s.chan[0]) == [] && Dues(quantum, s.chan[1]) == []
  }

  /** The step that is due, or a turn of the wait, that leaves the guest asleep. */
  function Doze(e: End, ms: seq<Msg>): Act { if e.waiting then Turn(ms, Halted(None)) else Step(ms, Halted(None)) }

  /** Leaving a step or blocking in it, all there is to promise has been promised. */
  lemma SettlePromises(e: End)
    ensures Settle(e).end.promised >= Promise(e)
    ensures Proceed(e).end.promised >= Promise(e)
  {
    var f := FirstReport(e).end;
    assert Promise(f) == Promise(e) by { PromiseLooks(e, f); }
    hide Promise, Clamped;
  }

  lemma DozeMay(e: End, ms: seq<Msg>)
    requires Idle(e) && (e.waiting || e.timer.value == e.now)
    ensures var a := Doze(e, ms); Enabled(e, a) && Input(a) == ms && (a.Step? || a.Turn?) && a.ms == ms && a.cpu == Halted(None)
    ensures Core(e) && AllDue(e.due, e.now) && e.promised <= e.now && LegalCpu(Halted(None), e.now)
  {
    hide Sorted;
  }

  /** An idle board that has read `ms` promises a quantum past what `ms` promised it. */
  lemma Dozes(e: End, ms: seq<Msg>)
    requires Idle(e) && (e.waiting || e.timer.value == e.now)
    requires Flow(BoardLink, e.peerPromise, ms) && Dues(e.quantum, ms) == []
    ensures var r := Do(e, Doze(e, ms)).end;
            && Enabled(e, Doze(e, ms)) && Input(Doze(e, ms)) == ms
            && Idle(r) && r.now == e.now && Outgoing(r) == EndP(BoardLink, e.peerPromise, ms) + e.quantum
  {
    var a := Doze(e, ms);
    var x := TakeIn(e, ms, Halted(None));
    IdleMeans(e);
    DozeMay(e, ms);
    hide *;
    DrainAppends(e, ms);
    TakenIn(e, a);
    TakeInKeeps(e, ms, Halted(None));
    BothNone(x.handed, x.end.due, e.due + Dues(e.quantum, ms));
    SettlePromises(x.end);
    ActKeeps(e, a);
    KeepsInv(e, a);
    assert x.end.cpu == Halted(None) && x.end.due == [];
    IdleFrom(Do(e, a).end, x.end);
  }

  lemma IdleMeans(e: End)
    requires Idle(e)
    ensures e.kind == BoardLink && Inv(e) && e.cpu == Halted(None) && e.due == []
  {
  }

  lemma BothNone(a: seq<Due>, b: seq<Due>, none: seq<Due>)
    requires a + b == none && none == []
    ensures a == [] && b == []
  {
    assert |a + b| == |a| + |b|;
  }

  /** An end left asleep with an empty queue, whose promises are all out. */
  lemma IdleFrom(r: End, x: End)
    requires Inv(r) && r.kind == BoardLink && r.cpu == Halted(None) == x.cpu && r.due == [] == x.due
    requires r.now == x.now && r.peerPromise == x.peerPromise && r.quantum == x.quantum && r.promised >= Promise(x)
    ensures Idle(r) && Outgoing(r) == r.peerPromise + r.quantum
  {
    assert r.promised <= r.peerPromise + r.quantum && r.reported <= r.now <= r.peerPromise + r.quantum;
  }

  /** An idle board's clock may run to its timer, which is no earlier than all it has promised. */
  lemma RunsIdle(e: End)
    requires Idle(e) && !e.waiting
    ensures e.timer.Some? && e.now <= e.timer.value && Outgoing(e) <= e.timer.value
    ensures var r := Do(e, Run(e.timer.value)).end;
            && Enabled(e, Run(e.timer.value)) && Input(Run(e.timer.value)) == [] && Do(e, Run(e.timer.value)).sent == []
            && Idle(r) && !r.waiting && r.now == r.timer.value == e.timer.value && r.peerPromise == e.peerPromise
            && Outgoing(r) == Outgoing(e)
  {
    hide Sorted, AllDue;
    assert AllDue([], e.timer.value) by { NoneDue(); }
  }

  lemma NoneDue()
    ensures forall low :: AllDue([], low)
  {
  }

  /** The rounds of one board: run up to its timer, unless it waits, and take in what has arrived. */
  function Round(s: T.System, i: nat): seq<T.Action>
    requires T.Shaped(s) && i < 2
  {
    var e := s.ends[i];
    if e.waiting || e.timer.None? then [T.Action(i, Doze(e, s.chan[i]))]
    else
      var r := Do(e, Run(e.timer.value)).end;
      [T.Action(i, Run(e.timer.value)), T.Action(i, Doze(r, s.chan[i]))]
  }

  lemma RestingMeans(s: T.System, quantum: int)
    requires Resting(s, quantum)
    ensures T.Good(s, quantum) && T.Shaped(s) && |s.ends| == |s.chan| == 2 && Idle(s.ends[0]) && Idle(s.ends[1])
    ensures Dues(quantum, s.chan[0]) == [] && Dues(quantum, s.chan[1]) == []
    ensures forall i | 0 <= i < 2 ::
              && s.ends[i].quantum == quantum && Flow(BoardLink, s.ends[i].peerPromise, s.chan[i])
              && EndP(BoardLink, s.ends[i].peerPromise, s.chan[i]) == Outgoing(s.ends[1 - i])
  {
    hide Inv, Flow, EndP, Dues, Outgoing, Idle;
  }

  lemma RestingFrom(s: T.System, quantum: int, i: nat)
    requires T.Good(s, quantum) && T.Shaped(s) && i < 2 && Idle(s.ends[i]) && Idle(s.ends[1 - i])
    requires Dues(quantum, s.chan[i]) == [] && Dues(quantum, s.chan[1 - i]) == []
    ensures Resting(s, quantum)
  {
    hide T.Good, Idle, Dues;
  }

  /** An action of an idle board that sends no frame. */
  lemma RestingNext(s: T.System, quantum: int, i: nat, act: Act)
    requires Resting(s, quantum) && T.Shaped(s) && i < 2 && !act.Send?
    requires Enabled(s.ends[i], act) && (Input(act) == [] || Input(act) == s.chan[i]) && Idle(Do(s.ends[i], act).end)
    ensures T.CanDo(s, T.Action(i, act))
    ensures var t := T.Next(s, T.Action(i, act));
            && Resting(t, quantum) && T.Shaped(t) && t.ends[i] == Do(s.ends[i], act).end && t.ends[1 - i] == s.ends[1 - i]
            && (Input(act) == [] ==> t.chan[i] == s.chan[i])
  {
    var a := T.Action(i, act);
    hide *;
    RestingMeans(s, quantum);
    T.TwoOfEach(s);
    T.NextEnd(s, a);
    T.NextGood(s, quantum, a);
    T.NextFields(s, quantum, a);
    T.OnlySendSends(s.ends[i], act);
    DuesConcat(quantum, s.chan[1 - i], Do(s.ends[i], act).sent);
    var t := T.Next(s, a);
    assert Dues(quantum, []) == [] by { NoDues(quantum); }
    assert t.chan[i] == if Input(act) == [] then s.chan[i] else [];
    RestingFrom(t, quantum, i);
  }

  lemma NoDues(quantum: int)
    ensures Dues(quantum, []) == []
  {
  }

  /** In at most two actions an idle board promises a quantum past all that the other has promised. */
  lemma IdleRound(s: T.System, quantum: int, i: nat)
    requires Resting(s, quantum) && T.Shaped(s) && i < 2
    ensures var run := Round(s, i);
            && 1 <= |run| <= 2 && T.CanRun(s, run)
            && var t := T.After(s, run);
               && Resting(t, quantum) && T.Shaped(t) && t.ends[1 - i] == s.ends[1 - i]
               && Outgoing(t.ends[i]) == Outgoing(s.ends[1 - i]) + quantum && t.ends[i].now >= Outgoing(s.ends[i])
  {
    var e, run := s.ends[i], Round(s, i);
    RoundIs(s, i);
    hide *;
    T.TwoOfEach(s);
    RestingMeans(s, quantum);
    WaitingOut(e);
    if e.waiting {
      IdleTurn(s, quantum, i);
    } else {
      RunsIdle(e);
      RestingNext(s, quantum, i, Run(e.timer.value));
      var t := T.Next(s, T.Action(i, Run(e.timer.value)));
      T.TwoOfEach(t);
      IdleTurn(t, quantum, i);
      T.RunOn(s, T.Action(i, Run(e.timer.value)), [T.Action(i, Doze(t.ends[i], t.chan[i]))]);
    }
  }

  lemma RoundIs(s: T.System, i: nat)
    requires T.Shaped(s) && i < 2 && (s.ends[i].waiting || s.ends[i].timer.Some?)
    ensures var e := s.ends[i];
            Round(s, i) == if e.waiting then [T.Action(i, Doze(e, s.chan[i]))]
                           else [T.Action(i, Run(e.timer.value))]
                                + [T.Action(i, Doze(Do(e, Run(e.timer.value)).end, s.chan[i]))]
  {
    hide Do, Doze;
  }

  lemma WaitingOut(e: End)
    requires Idle(e)
    ensures e.waiting || e.timer.Some?
    ensures e.waiting ==> Outgoing(e) == e.now
  {
    hide Sorted, AllDue;
  }

  /** The step or turn itself. */
  lemma IdleTurn(s: T.System, quantum: int, i: nat)
    requires Resting(s, quantum) && T.Shaped(s) && i < 2 && (s.ends[i].waiting || s.ends[i].timer == Some(s.ends[i].now))
    ensures var run := [T.Action(i, Doze(s.ends[i], s.chan[i]))];
            && T.CanRun(s, run)
            && var t := T.After(s, run);
               && Resting(t, quantum) && T.Shaped(t) && t.ends[1 - i] == s.ends[1 - i] && t.ends[i].now == s.ends[i].now
               && Outgoing(t.ends[i]) == Outgoing(s.ends[1 - i]) + quantum
  {
    hide *;
    T.TwoOfEach(s);
    RestingMeans(s, quantum);
    var e, ms := s.ends[i], s.chan[i];
    var act := Doze(e, ms);
    Dozes(e, ms);
    DozeMay(e, ms);
    RestingNext(s, quantum, i, act);
    T.RunNowhere(T.Next(s, T.Action(i, act)));
    T.RunOn(s, T.Action(i, act), []);
    assert [T.Action(i, act)] + [] == [T.Action(i, act)];
  }

  /** Neither board has promised more than a quantum past what the other has. */
  lemma WithinQuantum(s: T.System, quantum: int)
    requires Resting(s, quantum) && T.Shaped(s)
    ensures Outgoing(s.ends[1]) <= Outgoing(s.ends[0]) + quantum
  {
    RestingMeans(s, quantum);
    var e := s.ends[1];
    assert e.peerPromise <= EndP(BoardLink, e.peerPromise, s.chan[1]) && Core(e);
    hide Resting, Flow, EndP, AllDue, Sorted, Idle, Dues;
  }

  /** One exchange: a round of the first board, then one of the second. */
  lemma IdleExchange(s: T.System, quantum: int) returns (run: seq<T.Action>)
    requires Resting(s, quantum) && T.Shaped(s)
    ensures 2 <= |run| <= 4 && T.CanRun(s, run)
    ensures var t := T.After(s, run); Resting(t, quantum) && T.Shaped(t) && Gained(s, t, quantum, 1)
  {
    hide *;
    T.TwoOfEach(s);
    WithinQuantum(s, quantum);
    IdleRound(s, quantum, 0);
    var t := T.After(s, Round(s, 0));
    T.TwoOfEach(t);
    IdleRound(t, quantum, 1);
    T.RunsJoin(s, Round(s, 0), Round(t, 1));
    run := Round(s, 0) + Round(t, 1);
    T.TwoOfEach(T.After(s, run));
    GainedFrom(s, T.After(s, run), quantum, 1);
  }

  /** The promises `n` exchanges on, and the clocks that have followed them. */
  ghost predicate Gained(s: T.System, t: T.System, quantum: int, n: nat)
    requires T.Shaped(s) && T.Shaped(t)
  {
    && Outgoing(t.ends[1]) == Outgoing(s.ends[1]) + 2 * n * quantum
    && Outgoing(t.ends[0]) == Outgoing(t.ends[1]) - quantum
    && t.ends[0].now >= Outgoing(t.ends[0]) - 2 * quantum
    && t.ends[1].now >= Outgoing(t.ends[1]) - 2 * quantum
  }

  lemma GainedFrom(s: T.System, t: T.System, quantum: int, n: nat)
    requires T.Shaped(s) && T.Shaped(t)
    requires Outgoing(t.ends[1]) == Outgoing(s.ends[1]) + 2 * n * quantum && Outgoing(t.ends[0]) == Outgoing(t.ends[1]) - quantum
    requires t.ends[0].now >= Outgoing(t.ends[0]) - 2 * quantum && t.ends[1].now >= Outgoing(t.ends[1]) - 2 * quantum
    ensures Gained(s, t, quantum, n)
  {
  }

  lemma GainedOn(s: T.System, t: T.System, u: T.System, quantum: int, n: nat)
    requires T.Shaped(s) && T.Shaped(t) && T.Shaped(u) && Gained(s, t, quantum, 1) && (if n == 0 then u == t else Gained(t, u, quantum, n))
    ensures Gained(s, u, quantum, n + 1)
  {
    hide Outgoing;
    assert 2 * (n + 1) * quantum == 2 * n * quantum + 2 * quantum;
  }

  /**
   The classic lookahead: while both boards idle every exchange, of at most four actions, takes
   each board's promise two quanta further, and each clock past all that its board had promised
   before it.
   */
  lemma {:induction false} IdleBoardsGain(s: T.System, quantum: int, n: nat) returns (run: seq<T.Action>)
    requires Resting(s, quantum) && T.Shaped(s) && n > 0
    ensures |run| <= 4 * n && T.CanRun(s, run)
    ensures var t := T.After(s, run); Resting(t, quantum) && T.Shaped(t) && Gained(s, t, quantum, n)
    decreases n
  {
    hide *;
    var one := IdleExchange(s, quantum);
    var t := T.After(s, one);
    if n == 1 {
      run := one;
    } else {
      var rest := IdleBoardsGain(t, quantum, n - 1);
      T.RunsJoin(s, one, rest);
      run := one + rest;
      GainedOn(s, t, T.After(s, run), quantum, n - 1);
    }
  }

  /** Two boards come to rest as soon as both fall asleep with nothing to wake for. */
  lemma ComesToRest(quantum: int)
    requires 2 <= quantum
    ensures var run := [T.Action(0, Sleep(None)), T.Action(1, Sleep(None))];
            T.CanRun(T.Start(quantum), run) && Resting(T.After(T.Start(quantum), run), quantum)
  {
    var s, a, b := T.Start(quantum), T.Action(0, Sleep(None)), T.Action(1, Sleep(None));
    T.StartGood(quantum);
    assert T.Shaped(s) && s.ends[0] == s.ends[1] == Init(BoardLink, quantum) && s.chan[0] == s.chan[1] == [Other(0)];
    FallsAsleep(quantum);
    hide *;
    OneDue(quantum, Other(0));
    T.TwoOfEach(s);
    T.NextEnd(s, a);
    T.NextGood(s, quantum, a);
    T.NextFields(s, quantum, a);
    var t := T.Next(s, a);
    T.TwoOfEach(t);
    T.NextEnd(t, b);
    T.NextGood(t, quantum, b);
    T.NextFields(t, quantum, b);
    var u := T.Next(t, b);
    T.TwoOfEach(u);
    assert [Other(0)] + [] == [Other(0)] && [Other(0)][0..] == [Other(0)];
    RestingFrom(u, quantum, 0);
    T.RunNowhere(u);
    T.RunOn(t, b, []);
    T.RunOn(s, a, [b]);
    assert [b] + [] == [b] && [a] + [b] == [a, b];
  }

  lemma FallsAsleep(quantum: int)
    requires 2 <= quantum
    ensures var e, a := Init(BoardLink, quantum), Sleep(None);
            && Enabled(e, a) && Input(a) == [] && Do(e, a).sent == [] && Do(e, a).handed == [] && Idle(Do(e, a).end)
  {
    InitKeeps(BoardLink, quantum);
  }
}
