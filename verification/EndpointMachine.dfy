/**
 The step as the two files run it: one global record changed in place by a parse loop, a
 delivery loop and a wait loop.  Every method is tied to the value-level step of `Endpoint`.
 */
module EndpointMachine {
  import opened Common
  import opened Endpoint

  /** What one poll() of the socket finds, and how the guest took what was handed over. */
  datatype Arrival = Arrival(ms: seq<Msg>, cpu: Cpu)

  /** From the head of the wait loop, with what the socket will give up turn by turn. */
  function WaitLoop(e: End, later: seq<Arrival>): Outcome
    decreases |later|
  {
    var s := Settle(e);
    if s.end.waiting && later != [] then
      var t := TakeIn(s.end, later[0].ms, later[0].cpu);
      Then(s, Then(t, WaitLoop(t.end, later[1..])))
    else s
  }

  /** The whole timer callback: it returns when it leaves its wait, or is still inside when input runs out. */
  function WholeStep(e: End, first: Arrival, later: seq<Arrival>): Outcome {
    var a := TakeIn(e, first.ms, first.cpu);
    var b := FirstReport(a.end);
    Then(a, Then(b, WaitLoop(b.end, later)))
  }

  /** The blocking callback is the atomic begin of the step followed by the turns of its wait. */
  lemma {:induction false} StepIsBeginAndTurns(e: End, first: Arrival, later: seq<Arrival>)
    ensures WholeStep(e, first, later) == Then(StepBegin(e, first.ms, first.cpu),
                                               Turns(StepBegin(e, first.ms, first.cpu).end, later))
  {
    var a := TakeIn(e, first.ms, first.cpu);
    var b := FirstReport(a.end);
    LoopIsTurns(b.end, later);
    hide TakeIn, FirstReport, Settle, WaitLoop, Turns;
    ThenAssociates(a, b, Then(Settle(b.end), Turns(Settle(b.end).end, later)));
    ThenAssociates(b, Settle(b.end), Turns(Settle(b.end).end, later));
    ThenAssociates(a, Then(b, Settle(b.end)), Turns(Settle(b.end).end, later));
  }

  function Turns(e: End, later: seq<Arrival>): Outcome
    decreases |later|
  {
    if e.waiting && later != [] then
      var t := WaitTurn(e, later[0].ms, later[0].cpu);
      Then(t, Turns(t.end, later[1..]))
    else Outcome(e, [], [])
  }

  lemma ThenAssociates(a: Outcome, b: Outcome, c: Outcome)
    ensures Then(a, Then(b, c)) == Then(Then(a, b), c)
  {
    assert a.sent + (b.sent + c.sent) == a.sent + b.sent + c.sent;
    assert a.handed + (b.handed + c.handed) == a.handed + b.handed + c.handed;
  }

  lemma {:induction false} LoopIsTurns(e: End, later: seq<Arrival>)
    ensures WaitLoop(e, later) == Then(Settle(e), Turns(Settle(e).end, later))
    decreases |later|
  {
    var s := Settle(e);
    hide Settle, TakeIn;
    if s.end.waiting && later != [] {
      var t := TakeIn(s.end, later[0].ms, later[0].cpu);
      LoopIsTurns(t.end, later[1..]);
      ThenAssociates(t, Settle(t.end), Turns(Settle(t.end).end, later[1..]));
      assert Turns(s.end, later) == Then(Then(t, Settle(t.end)), Turns(Settle(t.end).end, later[1..]));
    } else {
      assert s.sent + [] == s.sent && s.handed + [] == s.handed;
    }
  }

  /** One turn of the wait loop moves its effects into what has already happened. */
  lemma LoopUnrolls(acc: Outcome, e: End, later: seq<Arrival>, k: nat)
    requires k <= |later| && e.now >= e.peerPromise + e.quantum
    ensures k < |later| ==>
              var t := TakeIn(Settle(e).end, later[k].ms, later[k].cpu);
              Then(acc, WaitLoop(e, later[k..])) == Then(Then(Then(acc, Settle(e)), t), WaitLoop(t.end, later[k + 1..]))
    ensures k == |later| ==> WaitLoop(e, later[k..]) == Settle(e)
  {
    var s := Settle(e);
    assert s.end.waiting;
    if k < |later| {
      assert later[k..][0] == later[k] && later[k..][1..] == later[k + 1..];
      var t := TakeIn(s.end, later[k].ms, later[k].cpu);
      var rest := WaitLoop(t.end, later[k + 1..]);
      assert WaitLoop(e, later[k..]) == Then(s, Then(t, rest));
      hide Settle, TakeIn, WaitLoop;
      ThenAssociates(acc, s, Then(t, rest));
      ThenAssociates(Then(acc, s), t, rest);
    }
  }

  lemma LoopEnds(e: End, later: seq<Arrival>)
    requires e.now < e.peerPromise + e.quantum
    ensures WaitLoop(e, later) == Finish(e)
  {
  }

  lemma {:induction false} InsertDueAt(q: seq<Due>, d: Due, k: nat)
    requires k <= |q| && (k == 0 || q[k - 1].due <= d.due)
    requires forall i | k <= i < |q| :: d.due < q[i].due
    ensures InsertDue(q, d) == q[..k] + [d] + q[k..]
    decreases |q|
  {
    InsertDueOne(q, d);
    hide *;
    if k < |q| {
      var front, last := q[..|q| - 1], q[|q| - 1];
      InsertDueAt(front, d, k);
      assert front[..k] == q[..k] && front[k..] + [last] == q[k..];
      assert front[..k] + [d] + front[k..] + [last] == front[..k] + [d] + (front[k..] + [last]);
    } else if q == [] {
      assert q[..k] + [d] + q[k..] == [d];
    } else {
      assert q[..k] + [d] + q[k..] == q + [d];
    }
  }

  /** Reporting changes nothing the promise looks at. */
  lemma ReportFree(e: End)
    ensures Promise(Report(e).end) == Promise(e)
  {
  }

  class Machine {
    const kind: Kind
    const quantum: int
    var now: int
    var peerPromise: int
    var reported: int
    var promised: int
    var due: seq<Due>
    var timer: Option<int>
    var waiting: bool
    var cpu: Cpu
    /** What went out on the wire and what the sink was given, oldest first. */
    var wire: seq<Msg>
    var handed: seq<Due>

    function State(): End
      reads this
    {
      End(kind, quantum, now, peerPromise, reported, promised, due, timer, waiting, cpu)
    }

    constructor (kind: Kind, quantum: int)
      ensures State() == Init(kind, quantum)
      ensures wire == [Other(0)] && handed == []
    {
      this.kind, this.quantum := kind, quantum;
      now, peerPromise, reported, promised := 0, 0, 0, 0;
      due, timer, waiting, cpu := [], Some(quantum / 2), false, Running;
      wire, handed := [Other(0)], [];
    }

    /** The segment's sorted insertion: walk back from the tail past every later frame. */
    method Enqueue(d: Due)
      modifies this`due
      ensures due == if kind == BoardLink then old(due) + [d] else InsertDue(old(due), d)
    {
      if kind == BoardLink {
        due := due + [d];
        return;
      }
      var k := |due|;
      while 0 < k && d.due < due[k - 1].due
        invariant 0 <= k <= |due|
        invariant forall i | k <= i < |due| :: d.due < due[i].due
      {
        k := k - 1;
      }
      InsertDueAt(due, d, k);
      due := due[..k] + [d] + due[k..];
    }

    method ParseAll(ms: seq<Msg>)
      modifies this`due, this`peerPromise
      ensures State() == Drain(old(State()), ms)
    {
      var i := 0;
      while i < |ms|
        invariant 0 <= i <= |ms|
        invariant Drain(State(), ms[i..]) == Drain(old(State()), ms)
        invariant State() == old(State()).(due := due, peerPromise := peerPromise)
      {
        hide Parse;
        assert ms[i..][0] == ms[i] && ms[i..][1..] == ms[i + 1..];
        ParseOne(ms[i]);
        i := i + 1;
      }
    }

    method ParseOne(m: Msg)
      modifies this`due, this`peerPromise
      ensures State() == Parse(old(State()), m)
    {
      hide InsertDue;
      if m.Frame? && m.data != [] {
        Enqueue(Due(m.t + quantum, m.data));
      }
      var promise := match kind
        case BoardLink => if m.Time? then m.promise else m.t
        case PlayerLink => if m.Time? then m.promise else peerPromise;
      if promise > peerPromise {
        peerPromise := promise;
      }
    }

    method Deliver()
      modifies this`due, this`handed
      ensures var n := Ripe(old(due), now);
              due == old(due)[n..] && handed == old(handed) + old(due)[..n]
    {
      ghost var n := 0;
      while due != [] && due[0].due <= now
        invariant n <= |old(due)| && due == old(due)[n..]
        invariant handed == old(handed) + old(due)[..n]
        invariant Ripe(old(due), now) == n + Ripe(due, now)
        decreases |due|
      {
        handed := handed + [due[0]];
        assert old(due)[..n] + [due[0]] == old(due)[..n + 1];
        due := due[1..];
        n := n + 1;
      }
    }

    /** Everything the machine holds and everything it has put out. */
    function Record(): Outcome
      reads this
    {
      Outcome(State(), wire, handed)
    }

    /** What drain, delivery and the poll hook do together. */
    method TakeInput(a: Arrival)
      modifies this`due, this`peerPromise, this`handed, this`cpu
      ensures Record() == Then(old(Record()), TakeIn(old(State()), a.ms, a.cpu))
    {
      hide Drain, Ripe;
      ghost var e, h := State(), handed;
      ParseAll(a.ms);
      ghost var d := Drain(e, a.ms);
      ghost var n := Ripe(d.due, now);
      assert State() == d && d.now == now;
      Deliver();
      assert due == d.due[n..] && handed == h + d.due[..n];
      cpu := a.cpu;
      assert State() == d.(due := d.due[n..], cpu := a.cpu);
      assert wire + [] == wire;
    }

    method ComputePromise() returns (promise: int)
      ensures promise == Promise(State())
    {
      if cpu.Running? {
        return now;
      }
      promise := peerPromise + quantum;
      if cpu.deadline.Some? && cpu.deadline.value < promise {
        promise := cpu.deadline.value;
      }
      if due != [] && due[0].due < promise {
        promise := due[0].due;
      }
      if promise <= now {
        promise := now;
      }
    }

    method SendTime(promise: int)
      requires promise == Promise(State())
      modifies this`wire, this`reported, this`promised
      ensures State() == Report(old(State())).end && wire == old(wire) + Report(old(State())).sent
    {
      wire := wire + [Time(now, promise)];
      if now > reported {
        reported := now;
      }
      promised := promise;
    }

    /** The guest time the step re-arms itself for. */
    method NextTime(promise: int) returns (next: int)
      requires promise == Promise(State())
      ensures next == Clamped(State())
    {
      next := peerPromise + quantum;
      if promise == now {
        if reported + quantum / 2 < next {
          next := reported + quantum / 2;
        }
      } else if promise < next {
        next := promise;
      }
      if due != [] && due[0].due < next {
        next := due[0].due;
      }
      if next <= now {
        next := now + 1;
      }
    }

    /** After the wait: a last report, then the timer. */
    method FinishStep()
      modifies this`wire, this`reported, this`promised, this`waiting, this`timer
      ensures Record() == Then(old(Record()), Finish(old(State())))
    {
      ghost var e := State();
      var promise := ComputePromise();
      ReportFree(e);
      hide Promise, Clamped;
      if promise > promised {
        SendTime(promise);
      }
      ghost var wanted := Promise(e) > e.promised;
      assert State() == ReportIf(e, wanted).end && wire == old(wire) + ReportIf(e, wanted).sent;
      var next := NextTime(promise);
      waiting, timer := false, Some(next);
      assert handed + [] == handed;
    }

    /** The report at the top of the wait loop's body. */
    method ReportWaiting()
      requires now >= peerPromise + quantum
      modifies this`wire, this`reported, this`promised, this`waiting, this`timer
      ensures Record() == Then(old(Record()), Settle(old(State()))) && waiting
    {
      var promise := ComputePromise();
      if reported != now || promise != promised {
        SendTime(promise);
      }
      waiting, timer := true, None;
      assert handed + [] == handed;
    }

    /** The wait loop: report at the top of each turn, block in poll(), take in what came. */
    method Wait(later: seq<Arrival>)
      modifies this
      ensures Record() == Then(old(Record()), WaitLoop(old(State()), later))
    {
      hide TakeIn, WaitLoop;
      var k := 0;
      ghost var before := Record();
      assert later[0..] == later;
      while now >= peerPromise + quantum
        invariant 0 <= k <= |later|
        invariant Then(before, WaitLoop(before.end, later)) == Then(Record(), WaitLoop(State(), later[k..]))
        decreases |later| - k
      {
        LoopUnrolls(Record(), State(), later, k);
        hide Settle, Then;
        ReportWaiting();
        if k == |later| {
          return;
        }
        TakeInput(later[k]);
        k := k + 1;
      }
      LoopEnds(State(), later[k..]);
      FinishStep();
    }

    /** The timer callback. */
    method Step(first: Arrival, later: seq<Arrival>)
      modifies this
      ensures Record() == Then(old(Record()), WholeStep(old(State()), first, later))
    {
      hide TakeIn, FirstReport, WaitLoop;
      ghost var before := Record();
      ghost var a := TakeIn(State(), first.ms, first.cpu);
      ghost var b := FirstReport(a.end);
      ThenAssociates(before, a, Then(b, WaitLoop(b.end, later)));
      ThenAssociates(Then(before, a), b, WaitLoop(b.end, later));
      TakeInput(first);
      ReportFirst();
      Wait(later);
    }

    method ReportFirst()
      modifies this`wire, this`reported, this`promised
      ensures Record() == Then(old(Record()), FirstReport(old(State())))
    {
      var promise := ComputePromise();
      if now - reported >= quantum / 2 || promise > promised {
        SendTime(promise);
      }
      assert handed + [] == handed;
    }

    /** A frame leaves, stamped with the guest time it left. */
    method SendFrame(data: seq<nat>)
      modifies this`wire, this`reported
      ensures State() == Do(old(State()), Send(data)).end && wire == old(wire) + Do(old(State()), Send(data)).sent
    {
      wire := wire + [Frame(now, data)];
      if now > reported {
        reported := now;
      }
    }
  }
}
