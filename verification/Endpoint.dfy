/**
 One end of a conservative co-simulation, on values: MAIN on the MAIN/GUI link
 (cdj2000_cosim.c) or a player on the Pro DJ Link segment (cdj2000_netsim.c), which run
 the same step.  `Kind` selects how a frame is queued and what raises the peer's promise.
 */
module Endpoint {
  import opened Common

  datatype Kind = BoardLink | PlayerLink

  /** A whole message off the wire: a TIME carrying a promise, a frame, or anything else. */
  datatype Msg =
    | Time(t: int, promise: int)
    | Frame(t: int, data: seq<nat>)
    | Other(t: int)

  /** A frame waiting for the guest time at which it reaches this end. */
  datatype Due = Due(due: int, data: seq<nat>)

  /** The CPU is running, or asleep until its next device timer (if it has one). */
  datatype Cpu = Running | Halted(deadline: Option<int>)

  datatype End = End(
    kind: Kind,
    quantum: int,
    now: int,
    peerPromise: int,
    reported: int,
    promised: int,
    due: seq<Due>,
    timer: Option<int>,
    waiting: bool,
    cpu: Cpu)

  /** A new state together with what was put on the wire and what was handed to the guest. */
  datatype Outcome = Outcome(end: End, sent: seq<Msg>, handed: seq<Due>)

  // ------------------------------------------------------------------ parsing

  /** Stable insertion in time order, ties in arrival order. */
  function InsertDue(q: seq<Due>, d: Due): seq<Due> {
    if q == [] then [d]
    else if q[|q| - 1].due <= d.due then q + [d]
    else InsertDue(q[..|q| - 1], d) + [q[|q| - 1]]
  }

  lemma InsertDueOne(q: seq<Due>, d: Due)
    ensures InsertDue(q, d) == if q == [] then [d] else if q[|q| - 1].due <= d.due then q + [d]
                               else InsertDue(q[..|q| - 1], d) + [q[|q| - 1]]
  {
  }

  /** The peer's promise after `m`, given the promise `p` before it. */
  function Adv(kind: Kind, p: int, m: Msg): int {
    match kind
    case BoardLink => Max(p, if m.Time? then m.promise else m.t)
    case PlayerLink => if m.Time? then Max(p, m.promise) else p
  }

  function Parse(e: End, m: Msg): End {
    var due := if m.Frame? && m.data != [] then
                 var d := Due(m.t + e.quantum, m.data);
                 if e.kind == BoardLink then e.due + [d] else InsertDue(e.due, d)
               else e.due;
    e.(due := due, peerPromise := Adv(e.kind, e.peerPromise, m))
  }

  function Drain(e: End, ms: seq<Msg>): End
    decreases |ms|
  {
    if ms == [] then e else Drain(Parse(e, ms[0]), ms[1..])
  }

  // ----------------------------------------------------------------- the step

  /** How many queued frames are due by `now`. */
  function Ripe(q: seq<Due>, now: int): (n: nat)
    ensures n <= |q|
  {
    if q != [] && q[0].due <= now then 1 + Ripe(q[1..], now) else 0
  }

  /** The earliest guest time this end could send anything. */
  function Promise(e: End): int {
    if e.cpu.Running? then e.now
    else
      var bound := e.peerPromise + e.quantum;
      var p1 := if e.due != [] && e.due[0].due < bound then e.due[0].due else bound;
      var p2 := if e.cpu.deadline.Some? && e.cpu.deadline.value < p1 then e.cpu.deadline.value else p1;
      Max(p2, e.now)
  }

  function Report(e: End): Outcome {
    Outcome(e.(reported := Max(e.reported, e.now), promised := Promise(e)), [Time(e.now, Promise(e))], [])
  }

  function ReportIf(e: End, wanted: bool): Outcome {
    if wanted then Report(e) else Outcome(e, [], [])
  }

  /** The time the step re-arms itself for, before and after the clamp to now + 1. */
  function Next(e: End): int {
    var bound := e.peerPromise + e.quantum;
    var n1 := if Promise(e) == e.now then Min(e.reported + e.quantum / 2, bound) else Min(Promise(e), bound);
    if e.due != [] && e.due[0].due < n1 then e.due[0].due else n1
  }

  function Clamped(e: End): int { if Next(e) <= e.now then e.now + 1 else Next(e) }

  /** The end of the step: a last report, then the timer. */
  function Finish(e: End): Outcome {
    var r := ReportIf(e, Promise(e) > e.promised);
    r.(end := r.end.(waiting := false, timer := Some(Clamped(r.end))))
  }

  /** The wait loop's test and, when the wait goes on, the report at the top of its body. */
  function Settle(e: End): Outcome {
    if e.now >= e.peerPromise + e.quantum then
      var r := ReportIf(e, e.reported != e.now || Promise(e) != e.promised);
      r.(end := r.end.(waiting := true, timer := None))
    else Finish(e)
  }

  /** Drain what has arrived and hand over what is due; `cpu` is how the guest took it. */
  function TakeIn(e: End, ms: seq<Msg>, cpu: Cpu): Outcome {
    var d := Drain(e, ms);
    var n := Ripe(d.due, d.now);
    Outcome(d.(due := d.due[n..], cpu := cpu), [], d.due[..n])
  }

  function Then(a: Outcome, b: Outcome): Outcome {
    Outcome(b.end, a.sent + b.sent, a.handed + b.handed)
  }

  /** The first report of a step. */
  function FirstReport(e: End): Outcome {
    ReportIf(e, e.now - e.reported >= e.quantum / 2 || Promise(e) > e.promised)
  }

  /** The first report, then the wait loop or the end of the step. */
  function Proceed(e: End): Outcome {
    Then(FirstReport(e), Settle(FirstReport(e).end))
  }

  /** The timer callback, up to leaving the wait loop or first blocking in it. */
  function StepBegin(e: End, ms: seq<Msg>, cpu: Cpu): Outcome {
    var a := TakeIn(e, ms, cpu);
    Then(a, Proceed(a.end))
  }

  /** One turn of the wait loop after poll() saw input. */
  function WaitTurn(e: End, ms: seq<Msg>, cpu: Cpu): Outcome {
    var a := TakeIn(e, ms, cpu);
    Then(a, Settle(a.end))
  }

  // ---------------------------------------------------- what one end can do

  /**
   Everything that can happen at one end.  `ms` is what the socket gives up at that moment.
   Guest time moves only in `Run`, and never past the step's timer or, asleep, past the
   next device timer: that is what -icount gives the step.
   */
  datatype Act =
    | Run(to: int)
    | Send(data: seq<nat>)
    | Sleep(deadline: Option<int>)
    | Fire(cpu: Cpu)
    | Step(ms: seq<Msg>, cpu: Cpu)
    | Turn(ms: seq<Msg>, cpu: Cpu)

  predicate LegalCpu(cpu: Cpu, now: int) {
    cpu.Halted? && cpu.deadline.Some? ==> now <= cpu.deadline.value
  }

  predicate Enabled(e: End, a: Act) {
    match a
    case Run(to) =>
      && !e.waiting && e.now <= to
      && (e.timer.Some? ==> to <= e.timer.value)
      && (e.cpu.Halted? && e.cpu.deadline.Some? ==> to <= e.cpu.deadline.value)
    case Send(_) => !e.waiting && e.cpu.Running?
    case Sleep(deadline) => !e.waiting && e.cpu.Running? && LegalCpu(Halted(deadline), e.now)
    case Fire(cpu) => !e.waiting && e.cpu == Halted(Some(e.now)) && LegalCpu(cpu, e.now)
    case Step(_, cpu) => !e.waiting && e.timer == Some(e.now) && LegalCpu(cpu, e.now)
    case Turn(_, cpu) => e.waiting && LegalCpu(cpu, e.now)
  }

  function Do(e: End, a: Act): Outcome {
    match a
    case Run(to) => Outcome(e.(now := to), [], [])
    case Send(data) => Outcome(e.(reported := Max(e.reported, e.now)), [Frame(e.now, data)], [])
    case Sleep(deadline) => Outcome(e.(cpu := Halted(deadline)), [], [])
    case Fire(cpu) => Outcome(e.(cpu := cpu), [], [])
    case Step(ms, cpu) => StepBegin(e, ms, cpu)
    case Turn(ms, cpu) => WaitTurn(e, ms, cpu)
  }

  /** The messages an action takes off the incoming channel. */
  function Input(a: Act): seq<Msg> {
    if a.Step? || a.Turn? then a.ms else []
  }

  function Init(kind: Kind, quantum: int): End {
    End(kind, quantum, 0, 0, 0, 0, [], Some(quantum / 2), false, Running)
  }

  // ------------------------------------------------- promises along a channel

  /** Every frame of `ms` is stamped no earlier than what had been promised before it. */
  ghost predicate Flow(kind: Kind, p: int, ms: seq<Msg>)
    decreases |ms|
  {
    ms == [] || ((ms[0].Frame? ==> p <= ms[0].t) && Flow(kind, Adv(kind, p, ms[0]), ms[1..]))
  }

  /** The promise in force once `ms` has been read. */
  ghost function EndP(kind: Kind, p: int, ms: seq<Msg>): (r: int)
    ensures p <= r
    decreases |ms|
  {
    if ms == [] then p else EndP(kind, Adv(kind, p, ms[0]), ms[1..])
  }

  /** What a reader that has seen everything this end sent holds as its promise. */
  ghost function Outgoing(e: End): int {
    if e.kind == BoardLink then Max(e.promised, e.reported) else e.promised
  }

  lemma {:induction false} FlowConcat(kind: Kind, p: int, a: seq<Msg>, b: seq<Msg>)
    ensures Flow(kind, p, a + b) <==> Flow(kind, p, a) && Flow(kind, EndP(kind, p, a), b)
    ensures EndP(kind, p, a + b) == EndP(kind, EndP(kind, p, a), b)
    decreases |a|
  {
    if a == [] {
      assert a + b == b;
    } else {
      assert (a + b)[1..] == a[1..] + b;
      FlowConcat(kind, Adv(kind, p, a[0]), a[1..], b);
    }
  }

  // ----------------------------------------------------------- the invariant

  ghost predicate Sorted(q: seq<Due>) {
    forall i, j | 0 <= i < j < |q| :: q[i].due <= q[j].due
  }

  ghost predicate AllDue(q: seq<Due>, low: int) {
    forall d | d in q :: low <= d.due
  }

  /** What holds of the clocks, the promises and the queue at every moment. */
  ghost predicate Core(e: End) {
    && 2 <= e.quantum
    && e.reported <= e.now <= e.peerPromise + e.quantum
    && e.promised <= e.peerPromise + e.quantum
    && AllDue(e.due, e.now)
    && AllDue(e.due, e.promised)
    && Sorted(e.due)
    && (e.kind == BoardLink ==> forall d | d in e.due :: d.due <= e.peerPromise + e.quantum)
    && LegalCpu(e.cpu, e.now)
    && (match e.cpu
        case Running => e.promised <= e.now
        case Halted(deadline) => deadline.Some? ==> e.promised <= deadline.value)
  }

  ghost predicate Inv(e: End) {
    && Core(e)
    && if e.waiting then
         e.timer.None? && e.now == e.peerPromise + e.quantum && e.promised == e.now == e.reported
         && AllDue(e.due, e.now + 1)
       else
         e.timer.Some? && e.now <= e.timer.value <= e.peerPromise + e.quantum
         && e.promised <= e.timer.value <= Outgoing(e) + e.quantum / 2 && AllDue(e.due, e.timer.value)
  }

  // ------------------------------------------------------------ parsing lemmas

  /** Ties keep arrival order: the new frame goes after every frame with the same due time. */
  lemma {:induction false} InsertDuePlace(q: seq<Due>, d: Due) returns (k: nat)
    requires Sorted(q)
    ensures k <= |q| && InsertDue(q, d) == q[..k] + [d] + q[k..]
    ensures forall i | 0 <= i < k :: q[i].due <= d.due
    ensures forall i | k <= i < |q| :: d.due < q[i].due
    decreases |q|
  {
    if q == [] || q[|q| - 1].due <= d.due {
      k := |q|;
    } else {
      var front, last := q[..|q| - 1], q[|q| - 1];
      assert InsertDue(q, d) == InsertDue(front, d) + [last] && Sorted(front);
      hide InsertDue, Sorted;
      k := InsertDuePlace(front, d);
      PlaceOn(front, last, k, d);
      assert q == front + [last];
    }
  }

  lemma PlaceOn(front: seq<Due>, last: Due, k: nat, d: Due)
    requires k <= |front| && d.due < last.due
    requires forall i | 0 <= i < k :: front[i].due <= d.due
    requires forall i | k <= i < |front| :: d.due < front[i].due
    ensures var q := front + [last];
            && front[..k] + [d] + front[k..] + [last] == q[..k] + [d] + q[k..]
            && (forall i | 0 <= i < k :: q[i].due <= d.due) && (forall i | k <= i < |q| :: d.due < q[i].due)
  {
    var q := front + [last];
    assert front[..k] == q[..k] && front[k..] + [last] == q[k..];
  }

  lemma InsertDueSorted(q: seq<Due>, d: Due)
    requires Sorted(q)
    ensures Sorted(InsertDue(q, d))
    ensures forall x :: x in InsertDue(q, d) <==> x == d || x in q
  {
    var k := InsertDuePlace(q, d);
  }

  lemma InsertDueAdds(q: seq<Due>, d: Due)
    requires Sorted(q)
    ensures multiset(InsertDue(q, d)) == multiset(q) + multiset{d}
  {
    var k := InsertDuePlace(q, d);
    hide InsertDue, Sorted;
    assert q == q[..k] + q[k..];
    assert multiset(q[..k] + [d] + q[k..]) == multiset(q[..k]) + multiset{d} + multiset(q[k..]);
  }

  /** The frames of a batch, in order, with their due times. */
  ghost function Dues(quantum: int, ms: seq<Msg>): seq<Due> {
    if ms == [] then []
    else (if ms[0].Frame? && ms[0].data != [] then [Due(ms[0].t + quantum, ms[0].data)] else [])
         + Dues(quantum, ms[1..])
  }

  lemma {:induction false} DuesConcat(quantum: int, a: seq<Msg>, b: seq<Msg>)
    ensures Dues(quantum, a + b) == Dues(quantum, a) + Dues(quantum, b)
    decreases |a|
  {
    if a == [] {
      assert a + b == b;
    } else {
      assert (a + b)[1..] == a[1..] + b;
      DuesConcat(quantum, a[1..], b);
    }
  }

  lemma OneDue(quantum: int, m: Msg)
    ensures Dues(quantum, [m]) == if m.Frame? && m.data != [] then [Due(m.t + quantum, m.data)] else []
  {
    assert [m][1..] == [];
    assert Dues(quantum, []) == [];
  }

  /** A queue that grows by a frame due no earlier than the peer's promise allows. */
  lemma QueueGrows(e: End, q: seq<Due>, d: Due, p: int, low: int)
    requires Core(e) && Sorted(q) && e.peerPromise + e.quantum <= d.due
    requires forall x | x in q :: x == d || x in e.due
    requires e.peerPromise <= p && (e.kind == BoardLink ==> d.due <= p + e.quantum)
    requires low <= e.peerPromise + e.quantum && AllDue(e.due, low)
    ensures Core(e.(due := q, peerPromise := p)) && AllDue(q, low)
  {
  }

  /** One message that keeps the peer's promise arrives no earlier than now. */
  lemma ParseKeeps(e: End, m: Msg, low: int)
    requires Core(e) && (m.Frame? ==> e.peerPromise <= m.t)
    requires low <= e.peerPromise + e.quantum && AllDue(e.due, low)
    ensures Core(Parse(e, m)) && AllDue(Parse(e, m).due, low)
  {
    if m.Frame? && m.data != [] {
      var d := Due(m.t + e.quantum, m.data);
      InsertDueSorted(e.due, d);
      if e.kind == BoardLink {
        ParseTail(e, d);
      }
      QueueGrows(e, Parse(e, m).due, d, Parse(e, m).peerPromise, low);
    }
  }

  /** On the board link a frame's stamp is the latest promise, so the tail is its place in time order. */
  lemma ParseTail(e: End, d: Due)
    requires Core(e) && e.kind == BoardLink && e.peerPromise + e.quantum <= d.due
    ensures e.due + [d] == InsertDue(e.due, d)
  {
  }

  /** Reading a batch that keeps its promises: nothing arrives in the past, the queue stays sorted. */
  lemma {:induction false} DrainKeeps(e: End, ms: seq<Msg>, low: int)
    requires Core(e) && Flow(e.kind, e.peerPromise, ms)
    requires low <= e.peerPromise + e.quantum && AllDue(e.due, low)
    ensures Core(Drain(e, ms)) && AllDue(Drain(e, ms).due, low)
    decreases |ms|
  {
    if ms != [] {
      ParseKeeps(e, ms[0], low);
      DrainKeeps(Parse(e, ms[0]), ms[1..], low);
    }
  }

  /** Reading a batch raises the peer's promise to what the batch promised and leaves every clock alone. */
  lemma {:induction false} DrainPromises(e: End, ms: seq<Msg>)
    ensures Drain(e, ms) == e.(due := Drain(e, ms).due, peerPromise := EndP(e.kind, e.peerPromise, ms))
    decreases |ms|
  {
    if ms != [] {
      DrainPromises(Parse(e, ms[0]), ms[1..]);
    }
  }

  lemma ParseMoves(e: End, m: Msg)
    requires e.kind == PlayerLink && Sorted(e.due)
    ensures multiset(Parse(e, m).due) == multiset(e.due) + multiset(Dues(e.quantum, [m]))
    ensures Sorted(Parse(e, m).due)
  {
    OneDue(e.quantum, m);
    hide InsertDue, Sorted, Dues;
    if m.Frame? && m.data != [] {
      var d := Due(m.t + e.quantum, m.data);
      InsertDueSorted(e.due, d);
      InsertDueAdds(e.due, d);
    }
  }

  /** Reading a batch moves exactly its frames into the queue. */
  lemma {:induction false} DrainMoves(e: End, ms: seq<Msg>)
    requires e.kind == PlayerLink && Sorted(e.due)
    ensures multiset(Drain(e, ms).due) == multiset(e.due) + multiset(Dues(e.quantum, ms))
    decreases |ms|
  {
    if ms != [] {
      var e1 := Parse(e, ms[0]);
      var now, rest := Dues(e.quantum, [ms[0]]), Dues(e.quantum, ms[1..]);
      ParseMoves(e, ms[0]);
      DrainMoves(e1, ms[1..]);
      assert [ms[0]] + ms[1..] == ms;
      DuesConcat(e.quantum, [ms[0]], ms[1..]);
      assert e1.quantum == e.quantum;
      assert multiset(now + rest) == multiset(now) + multiset(rest);
    }
  }

  /** On the board link the frames keep their order as well. */
  lemma {:induction false} DrainAppends(e: End, ms: seq<Msg>)
    requires e.kind == BoardLink
    ensures Drain(e, ms).due == e.due + Dues(e.quantum, ms)
    decreases |ms|
  {
    if ms == [] {
      assert e.due + [] == e.due;
    } else {
      DrainAppends(Parse(e, ms[0]), ms[1..]);
      OneDue(e.quantum, ms[0]);
    }
  }

  lemma {:induction false} RipeSplits(q: seq<Due>, now: int)
    requires Sorted(q) && AllDue(q, now)
    ensures forall d | d in q[..Ripe(q, now)] :: d.due == now
    ensures AllDue(q[Ripe(q, now)..], now + 1)
    decreases |q|
  {
    if q != [] && q[0].due <= now {
      var rest, n := q[1..], Ripe(q[1..], now);
      RestDue(q, now);
      hide Sorted, AllDue;
      RipeSplits(rest, now);
      assert Ripe(q, now) == n + 1;
      hide Ripe;
      assert q[..n + 1] == [q[0]] + rest[..n] && q[n + 1..] == rest[n..];
    } else {
      assert q[..0] == [] && q[0..] == q;
      assert forall d | d in q :: q[0].due <= d.due;
    }
  }

  lemma RestDue(q: seq<Due>, now: int)
    requires Sorted(q) && AllDue(q, now) && q != []
    ensures Sorted(q[1..]) && AllDue(q[1..], now) && q[0].due >= now
  {
    assert forall d | d in q[1..] :: d in q;
    assert q[0] in q;
  }

  // --------------------------------------------------------------- step lemmas

  /** Reports are sound and never take a promise back. */
  lemma ReportIfKeeps(e: End, wanted: bool)
    requires Core(e)
    ensures Core(ReportIf(e, wanted).end)
    ensures e.promised <= Promise(e) && e.now <= Promise(e) <= e.peerPromise + e.quantum
    ensures Flow(e.kind, Outgoing(e), ReportIf(e, wanted).sent)
    ensures EndP(e.kind, Outgoing(e), ReportIf(e, wanted).sent) == Outgoing(ReportIf(e, wanted).end)
    ensures Promise(ReportIf(e, wanted).end) == Promise(e)
  {
    if wanted {
      var m := Time(e.now, Promise(e));
      assert [m][1..] == [];
      assert Flow(e.kind, Adv(e.kind, Outgoing(e), m), []);
    }
  }

  /** The clamp of the re-armed time to now + 1 is never taken. */
  lemma ClampNeverTaken(e: End)
    requires Core(e) && e.now < e.peerPromise + e.quantum && AllDue(e.due, e.now + 1)
    requires e.now - e.reported < e.quantum / 2
    ensures e.now < Next(e) == Clamped(e)
  {
  }

  /** The timer stands where the comparisons put it, strictly in the future: the clamp to now + 1 was not taken. */
  ghost predicate Rearmed(e: End) {
    e.timer == Some(Next(e)) && e.now < Next(e)
  }

  /** Leaving the wait, the end re-arms itself strictly in its future and no later than the peer's promise allows. */
  lemma FinishKeeps(e: End)
    requires Core(e) && AllDue(e.due, e.now + 1)
    requires e.now < e.peerPromise + e.quantum && e.now - e.reported < e.quantum / 2
    ensures Inv(Finish(e).end) && !Finish(e).end.waiting && Rearmed(Finish(e).end)
  {
    var x := ReportIf(e, Promise(e) > e.promised).end;
    ReportIfKeeps(e, Promise(e) > e.promised);
    assert Promise(x) <= x.promised && x.now - x.reported < x.quantum / 2;
    hide Core, Promise, Next;
    ArmKeeps(x);
  }

  /** Arming the timer once the last report is out. */
  lemma ArmKeeps(x: End)
    requires Core(x) && AllDue(x.due, x.now + 1) && x.now < x.peerPromise + x.quantum && x.now - x.reported < x.quantum / 2
    requires Promise(x) <= x.promised
    ensures var r := x.(waiting := false, timer := Some(Clamped(x))); Inv(r) && Rearmed(r)
  {
    ClampNeverTaken(x);
    var r, next := x.(waiting := false, timer := Some(Clamped(x))), Next(x);
    assert Promise(r) == Promise(x) && Next(r) == next;
    assert next <= x.peerPromise + x.quantum && x.promised <= next <= x.promised + x.quantum / 2;
    hide Promise, Next, Clamped, LegalCpu;
    assert AllDue(x.due, next);
  }

  lemma BlockKeeps(e: End)
    requires Core(e) && AllDue(e.due, e.now + 1)
    requires e.now >= e.peerPromise + e.quantum
    ensures Inv(Settle(e).end) && Settle(e).end.waiting
  {
    ReportIfKeeps(e, e.reported != e.now || Promise(e) != e.promised);
  }

  /** Leaving the step or blocking in it keeps the invariant, and what it reports keeps every promise. */
  lemma SettleKeeps(e: End)
    requires Core(e) && AllDue(e.due, e.now + 1)
    requires e.now < e.peerPromise + e.quantum ==> e.now - e.reported < e.quantum / 2
    ensures Inv(Settle(e).end) && Settle(e).handed == []
    ensures Flow(e.kind, Outgoing(e), Settle(e).sent)
    ensures EndP(e.kind, Outgoing(e), Settle(e).sent) == Outgoing(Settle(e).end)
    ensures e.promised <= Settle(e).end.promised
    ensures Settle(e).end.waiting <==> e.now >= e.peerPromise + e.quantum
    ensures !Settle(e).end.waiting ==> Rearmed(Settle(e).end)
    ensures Settle(e).end.due == e.due && Settle(e).end.kind == e.kind && Settle(e).end.quantum == e.quantum
  {
    if e.now >= e.peerPromise + e.quantum {
      BlockKeeps(e);
      ReportIfKeeps(e, e.reported != e.now || Promise(e) != e.promised);
    } else {
      FinishKeeps(e);
      ReportIfKeeps(e, Promise(e) > e.promised);
    }
  }

  // ------------------------------------------------------ one action at one end

  lemma TakeInKeeps(e: End, ms: seq<Msg>, cpu: Cpu)
    requires Core(e) && Flow(e.kind, e.peerPromise, ms)
    requires AllDue(e.due, e.now) && e.promised <= e.now && LegalCpu(cpu, e.now)
    ensures Core(TakeIn(e, ms, cpu).end) && AllDue(TakeIn(e, ms, cpu).end.due, e.now + 1)
    ensures forall d | d in TakeIn(e, ms, cpu).handed :: d.due == e.now
    ensures TakeIn(e, ms, cpu).end == e.(cpu := cpu, due := TakeIn(e, ms, cpu).end.due,
                                         peerPromise := EndP(e.kind, e.peerPromise, ms))
    ensures TakeIn(e, ms, cpu).handed + TakeIn(e, ms, cpu).end.due == Drain(e, ms).due
  {
    var d := Drain(e, ms);
    DrainKeeps(e, ms, e.now);
    DrainPromises(e, ms);
    assert d.now == e.now && d.promised == e.promised;
    hide Drain, EndP, Flow;
    RipeSplits(d.due, d.now);
    hide Ripe;
    Handed(d, Ripe(d.due, d.now), cpu);
    hide Core, AllDue, LegalCpu;
  }

  /** Handing over the front of the queue leaves the end in order. */
  lemma Handed(d: End, n: nat, cpu: Cpu)
    requires Core(d) && n <= |d.due| && AllDue(d.due[n..], d.now + 1) && d.promised <= d.now && LegalCpu(cpu, d.now)
    ensures Core(d.(due := d.due[n..], cpu := cpu)) && d.due[..n] + d.due[n..] == d.due
  {
    var rest := d.due[n..];
    assert forall i | 0 <= i < |rest| :: rest[i] == d.due[n + i] && rest[i] in d.due;
    hide LegalCpu;
  }

  /** What every action of an end guarantees, given that what it reads keeps the peer's promises. */
  ghost predicate Keeps(e: End, a: Act) {
    KeepsWith(e, Input(a), Do(e, a))
  }

  ghost predicate KeepsWith(e: End, ms: seq<Msg>, o: Outcome) {
    && Inv(o.end)
    && o.end.kind == e.kind && o.end.quantum == e.quantum && e.now <= o.end.now
    && o.end.peerPromise == EndP(e.kind, e.peerPromise, ms)
    && e.promised <= o.end.promised
    && Flow(e.kind, Outgoing(e), o.sent)
    && EndP(e.kind, Outgoing(e), o.sent) == Outgoing(o.end)
    && (forall d | d in o.handed :: d.due == o.end.now == e.now)
    && o.handed + o.end.due == Drain(e, ms).due
  }

  /** The end of a step or of a wait leaves the timer strictly in the future. */
  ghost predicate Leaves(a: Act, o: Outcome) {
    (a.Step? || a.Turn?) && !o.end.waiting ==> Rearmed(o.end)
  }

  /** What the part of a step after the hand-over guarantees. */
  ghost predicate Settles(e: End, o: Outcome) {
    && Inv(o.end) && o.handed == []
    && o.end == e.(reported := o.end.reported, promised := o.end.promised,
                   waiting := o.end.waiting, timer := o.end.timer)
    && (!o.end.waiting ==> Rearmed(o.end))
    && e.promised <= o.end.promised
    && Flow(e.kind, Outgoing(e), o.sent)
    && EndP(e.kind, Outgoing(e), o.sent) == Outgoing(o.end)
  }

  lemma SettleSettles(e: End)
    requires Core(e) && AllDue(e.due, e.now + 1)
    requires e.now < e.peerPromise + e.quantum ==> e.now - e.reported < e.quantum / 2
    ensures Settles(e, Settle(e))
  {
    hide Inv, Flow, EndP;
    SettleKeeps(e);
  }

  lemma ProceedSettles(e: End)
    requires Core(e) && AllDue(e.due, e.now + 1)
    ensures Settles(e, Proceed(e))
  {
    hide *;
    var b := FirstReport(e);
    FirstReportKeeps(e);
    SettleSettles(b.end);
    SettlesAfter(e, b, Settle(b.end));
  }

  lemma FirstReportKeeps(e: End)
    requires Core(e) && AllDue(e.due, e.now + 1)
    ensures var b := FirstReport(e);
            && Core(b.end) && AllDue(b.end.due, b.end.now + 1) && b.end.now - b.end.reported < b.end.quantum / 2
            && b.end == e.(reported := b.end.reported, promised := b.end.promised) && e.promised <= b.end.promised
            && b.handed == [] && Flow(e.kind, Outgoing(e), b.sent) && EndP(e.kind, Outgoing(e), b.sent) == Outgoing(b.end)
  {
    var wanted := e.now - e.reported >= e.quantum / 2 || Promise(e) > e.promised;
    ReportIfKeeps(e, wanted);
    hide Core, Flow, EndP, AllDue, Promise;
  }

  lemma SettlesAfter(e: End, b: Outcome, o: Outcome)
    requires b.end == e.(reported := b.end.reported, promised := b.end.promised) && e.promised <= b.end.promised
    requires b.handed == [] && Flow(e.kind, Outgoing(e), b.sent) && EndP(e.kind, Outgoing(e), b.sent) == Outgoing(b.end)
    requires Settles(b.end, o) && o == Settle(b.end) && b == FirstReport(e)
    ensures Settles(e, Proceed(e))
  {
    FlowConcat(e.kind, Outgoing(e), b.sent, o.sent);
    hide Inv, Flow, EndP, Outgoing, Settle, FirstReport, Rearmed;
    assert [] + o.handed == o.handed;
  }

  lemma TakeInThen(e: End, ms: seq<Msg>, cpu: Cpu, o: Outcome)
    requires Core(e) && AllDue(e.due, e.now) && e.promised <= e.now && LegalCpu(cpu, e.now)
    requires Flow(e.kind, e.peerPromise, ms)
    requires Settles(TakeIn(e, ms, cpu).end, o)
    ensures KeepsWith(e, ms, Then(TakeIn(e, ms, cpu), o))
  {
    TakeInKeeps(e, ms, cpu);
    hide Core, Inv, Flow, EndP, Drain, TakeIn;
    var a := TakeIn(e, ms, cpu);
    assert [] + o.sent == o.sent && a.handed + [] == a.handed;
  }

  /**
   The rely-guarantee theorem of one end: whatever it does, its invariant holds again, its
   promises only grow, what it sends keeps every promise it ever reported, and a frame is
   handed over at exactly its due time.
   */
  lemma ActKeeps(e: End, a: Act)
    requires Inv(e) && Enabled(e, a) && Flow(e.kind, e.peerPromise, Input(a))
    ensures Keeps(e, a)
  {
    if a.Step? || a.Turn? {
      StepKeeps(e, a);
    } else {
      GuestKeeps(e, a);
    }
  }

  lemma StepKeeps(e: End, a: Act)
    requires Inv(e) && Enabled(e, a) && Flow(e.kind, e.peerPromise, Input(a)) && (a.Step? || a.Turn?)
    ensures Keeps(e, a)
  {
    var x := TakeIn(e, a.ms, a.cpu).end;
    TakeInKeeps(e, a.ms, a.cpu);
    hide Core, Flow, EndP, Settle, Proceed, TakeIn, Settles, KeepsWith;
    if a.Step? {
      ProceedSettles(x);
      TakeInThen(e, a.ms, a.cpu, Proceed(x));
    } else {
      SettleSettles(x);
      TakeInThen(e, a.ms, a.cpu, Settle(x));
    }
  }

  /** Every step and every turn of a wait that is left re-arms the end strictly in its future. */
  lemma ActRearms(e: End, a: Act)
    requires Inv(e) && Enabled(e, a) && Flow(e.kind, e.peerPromise, Input(a))
    ensures Leaves(a, Do(e, a))
  {
    if a.Step? || a.Turn? {
      var x := TakeIn(e, a.ms, a.cpu).end;
      TakeInKeeps(e, a.ms, a.cpu);
      hide Core, Flow, EndP, Settle, Proceed, TakeIn, Rearmed;
      if a.Step? {
        ProceedSettles(x);
      } else {
        SettleSettles(x);
      }
    }
  }

  lemma GuestKeeps(e: End, a: Act)
    requires Inv(e) && Enabled(e, a) && !a.Step? && !a.Turn?
    ensures Keeps(e, a)
  {
    if a.Send? {
      SendKeeps(e, a.data);
    } else {
      QuietKeeps(e, a);
    }
  }

  /** What the guest does without sending moves only its clock and its CPU. */
  lemma QuietKeeps(e: End, a: Act)
    requires Inv(e) && Enabled(e, a) && (a.Run? || a.Sleep? || a.Fire?)
    ensures Keeps(e, a)
  {
    var r := Do(e, a).end;
    assert r == e.(now := r.now, cpu := r.cpu) && Core(r);
    assert [] + e.due == e.due && Drain(e, []) == e;
    assert Flow(e.kind, Outgoing(e), []) && EndP(e.kind, Outgoing(e), []) == Outgoing(e);
    assert EndP(e.kind, e.peerPromise, []) == e.peerPromise;
    hide Core, Flow, EndP, Drain, AllDue, Enabled;
  }

  lemma SendKeeps(e: End, data: seq<nat>)
    requires Inv(e) && Enabled(e, Send(data))
    ensures Keeps(e, Send(data))
  {
    var m := Frame(e.now, data);
    assert [m][1..] == [] && Flow(e.kind, Adv(e.kind, Outgoing(e), m), []);
    assert EndP(e.kind, Outgoing(e), [m]) == Adv(e.kind, Outgoing(e), m);
    assert [] + e.due == e.due;
    hide Flow, EndP, Sorted, AllDue;
  }

  /** An action that moves the system: a wait is left, a step is taken, the guest wakes or the clock advances. */
  predicate Moves(e: End, a: Act) {
    || (e.waiting && !Do(e, a).end.waiting)
    || (!e.waiting && (a.Step? || (a.Fire? && a.cpu.Running?) || (a.Run? && e.now < a.to)))
  }

  /** An end that is not waiting can always move. */
  lemma FreeEndMoves(e: End) returns (a: Act)
    requires Inv(e) && !e.waiting
    ensures Enabled(e, a) && Moves(e, a) && Input(a) == []
  {
    if e.timer.value == e.now {
      a := Step([], Running);
    } else if e.cpu == Halted(Some(e.now)) {
      a := Fire(Running);
    } else if e.cpu.Halted? && e.cpu.deadline.Some? && e.cpu.deadline.value < e.timer.value {
      a := Run(e.cpu.deadline.value);
    } else {
      a := Run(e.timer.value);
    }
  }

  // ---------------------------------------------------------- time goes on

  /** Actions one after another at one end, none of which reads anything. */
  predicate CanAll(e: End, acts: seq<Act>)
    decreases |acts|
  {
    acts == [] || (Enabled(e, acts[0]) && Input(acts[0]) == [] && CanAll(Do(e, acts[0]).end, acts[1..]))
  }

  function DoAll(e: End, acts: seq<Act>): End
    decreases |acts|
  {
    if acts == [] then e else DoAll(Do(e, acts[0]).end, acts[1..])
  }

  /** An end whose timer lies ahead can let its clock go on. */
  lemma FreeAdvances(e: End) returns (acts: seq<Act>)
    requires Inv(e) && !e.waiting && e.now < e.timer.value
    ensures CanAll(e, acts) && e.now < DoAll(e, acts).now
  {
    if e.cpu == Halted(Some(e.now)) {
      acts := [Fire(Running), Run(e.timer.value)];
      assert acts[1..] == [Run(e.timer.value)];
      OneAct(Do(e, acts[0]).end, Run(e.timer.value));
    } else {
      var to := if e.cpu.Halted? && e.cpu.deadline.Some? && e.cpu.deadline.value < e.timer.value then e.cpu.deadline.value
                else e.timer.value;
      acts := [Run(to)];
      OneAct(e, Run(to));
    }
    hide Core, AllDue;
  }

  lemma OneAct(e: End, a: Act)
    requires Enabled(e, a) && Input(a) == []
    ensures CanAll(e, [a]) && DoAll(e, [a]) == Do(e, a).end
  {
    assert [a][1..] == [];
    hide Enabled, Input, Do;
    assert DoAll(Do(e, a).end, []) == Do(e, a).end;
  }

  /** The step that is due, or the turn of a wait, reading `ms`. */
  function CatchUp(e: End, ms: seq<Msg>): Act { if e.waiting then Turn(ms, Running) else Step(ms, Running) }

  /** An end that reads a promise above its clock less a quantum is free, with its timer ahead. */
  lemma CatchUpFrees(e: End, ms: seq<Msg>)
    requires Inv(e) && (e.waiting || e.timer.value == e.now) && Flow(e.kind, e.peerPromise, ms)
    requires e.now < EndP(e.kind, e.peerPromise, ms) + e.quantum
    ensures var a, r := CatchUp(e, ms), Do(e, CatchUp(e, ms)).end;
            && Enabled(e, a) && Input(a) == ms && Inv(r) && r.now == e.now
            && !r.waiting && r.now < r.timer.value
  {
    var a := CatchUp(e, ms);
    assert Enabled(e, a) && Input(a) == ms && (a.Step? || a.Turn?);
    ActKeeps(e, a);
    ActRearms(e, a);
    CatchUpLeaves(e, ms);
    var o := Do(e, a);
    assert o.end.timer == Some(Next(o.end)) && Inv(o.end);
    hide *;
  }

  lemma CatchUpLeaves(e: End, ms: seq<Msg>)
    requires Inv(e) && (e.waiting || e.timer.value == e.now) && Flow(e.kind, e.peerPromise, ms)
    requires e.now < EndP(e.kind, e.peerPromise, ms) + e.quantum
    ensures var r := Do(e, CatchUp(e, ms)).end; !r.waiting && r.now == e.now
  {
    var x := TakeIn(e, ms, Running).end;
    assert AllDue(e.due, e.now) && e.promised <= e.now && LegalCpu(Running, e.now) && Core(e);
    CatchUpEnds(e, ms);
    FirstReportFrame(x);
    FreeSettles(x);
    FreeSettles(FirstReport(x).end);
    hide *;
    TakeInKeeps(e, ms, Running);
  }

  /** Where a step or a turn of the wait ends. */
  lemma CatchUpEnds(e: End, ms: seq<Msg>)
    ensures var x := TakeIn(e, ms, Running).end;
            Do(e, CatchUp(e, ms)).end == if e.waiting then Settle(x).end else Settle(FirstReport(x).end).end
  {
    hide TakeIn, Settle, FirstReport;
  }

  lemma FirstReportFrame(e: End)
    ensures var r := FirstReport(e).end; r.now == e.now && r.peerPromise == e.peerPromise && r.quantum == e.quantum
  {
  }

  lemma FreeSettles(e: End)
    ensures Settle(e).end.waiting <==> e.now >= e.peerPromise + e.quantum
    ensures Settle(e).end.now == e.now
  {
  }

  lemma InitKeeps(kind: Kind, quantum: int)
    requires 2 <= quantum
    ensures Inv(Init(kind, quantum)) && Outgoing(Init(kind, quantum)) == 0
  {
  }
}
