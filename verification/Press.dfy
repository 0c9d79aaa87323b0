/**
 Button presses injected into the panel's frames: a queue of clicks served one at a time,
 each driven for at least two frames and its hold time and followed by at least two frames
 without it, so that the firmware's edge detector sees every click as its own edge.
 A payload byte is the set of its bits.
 */
module Press {
  import opened Common

  const QUEUE: nat := 32
  const ACKS: nat := 32
  const MIN_FRAMES: nat := 2
  const PAYLOAD_MAX: nat := 22

  datatype Click = Click(byte: nat, mask: set<nat>, hold: int, id: nat)
  datatype Phase = Idle | Down | Up

  /** Where a press landed: the first and last frame that carried it, and when. */
  datatype Run = Run(click: Click, first: int, last: int, downAt: int, upAt: int)

  /** What one frame carried. */
  datatype Beat = Beat(now: int, pulse: Option<Click>)

  /** A click that left the queue: served, or dropped by `clear`. */
  datatype Exit = Exit(click: Click, served: bool)

  datatype Ack = Ack(id: nat, down: bool, done: bool, first: nat, last: nat, downAt: int, upAt: int)

  datatype Panel = Panel(
    queue: seq<Click>,
    phase: Phase, active: Click, since: int, phaseFrames: nat,
    holdNs: int, gapNs: int, nextId: nat,
    acks: seq<Ack>,
    /* History: every frame, every press that has ended, every click taken in, and every one that left the queue. */
    log: seq<Beat>, runs: seq<Run>, accepted: seq<Click>, gone: seq<Exit>)

  const NO_CLICK: Click := Click(0, {}, 0, 0)
  const NO_ACK: Ack := Ack(0, false, false, 0, 0, 0, 0)

  function Init(): Panel {
    Panel([], Idle, NO_CLICK, 0, 0, 300_000_000, 300_000_000, 1, seq(ACKS, i => NO_ACK), [], [], [], [])
  }

  /** The record of a press, unless a later press has taken its slot. */
  function Slot(p: Panel, id: nat): Option<nat>
    requires |p.acks| == ACKS
  {
    if p.acks[id % ACKS].id == id then Some(id % ACKS) else None
  }

  /** Frames are numbered from 1; the one under way is the next. */
  function AckDown(p: Panel, id: nat, now: int): (r: Panel)
    requires |p.acks| == ACKS
    ensures r == p.(acks := r.acks) && |r.acks| == ACKS
  {
    match Slot(p, id)
    case None => p
    case Some(k) => p.(acks := p.acks[k := p.acks[k].(down := true, first := |p.log| + 1, downAt := now)])
  }

  function AckDone(p: Panel, id: nat, now: int): (r: Panel)
    requires |p.acks| == ACKS
    ensures r == p.(acks := r.acks) && |r.acks| == ACKS
  {
    match Slot(p, id)
    case None => p
    case Some(k) => p.(acks := p.acks[k := p.acks[k].(done := true, last := |p.log| + 1, upAt := now)])
  }

  // --------------------------------------------------------------- commands

  /** A press command; a full queue refuses it. */
  function Accept(p: Panel, byte: nat, mask: set<nat>, hold: Option<int>): (r: Option<Panel>)
    requires |p.acks| == ACKS
  {
    if |p.queue| >= QUEUE then None
    else
      var c := Click(byte, mask, if hold.Some? then hold.value else p.holdNs, p.nextId);
      Some(p.(queue := p.queue + [c], nextId := p.nextId + 1, accepted := p.accepted + [c],
              acks := p.acks[p.nextId % ACKS := NO_ACK.(id := p.nextId)]))
  }

  function Dropped(cs: seq<Click>): (r: seq<Exit>)
    ensures |r| == |cs|
  {
    seq(|cs|, i requires 0 <= i < |cs| => Exit(cs[i], false))
  }

  function Clear(p: Panel): Panel { p.(queue := [], gone := p.gone + Dropped(p.queue)) }

  // ----------------------------------------------------------------- a frame

  /** An idle panel takes the next click. */
  function Begin(p: Panel, now: int): (r: Panel)
    requires |p.acks| == ACKS
    ensures |r.acks| == ACKS
  {
    if p.phase == Idle && p.queue != [] then
      AckDown(p.(active := p.queue[0], queue := p.queue[1..], phase := Down, since := now, phaseFrames := 0,
                 gone := p.gone + [Exit(p.queue[0], true)]), p.queue[0].id, now)
    else p
  }

  /** What the frame carries once a click may have begun. */
  function Pulse(p: Panel): Option<Click> { if p.phase == Down then Some(p.active) else None }

  /** The phase after a frame. */
  function End(p: Panel, now: int): (r: Panel)
    requires |p.acks| == ACKS
    ensures |r.acks| == ACKS
  {
    var q := p.(phaseFrames := p.phaseFrames + 1);
    if p.phase == Down then
      if q.phaseFrames >= MIN_FRAMES && now - p.since >= p.active.hold then
        AckDone(q.(phase := Up, since := now, phaseFrames := 0,
                   runs := q.runs + [Run(p.active, |p.log| + 1 - q.phaseFrames, |p.log|, p.since, now)]),
                p.active.id, now)
      else q
    else if p.phase == Up then
      if q.phaseFrames >= MIN_FRAMES && now - p.since >= p.gapNs then q.(phase := Idle) else q
    else p
  }

  /** One panel exchange. */
  function Frame(p: Panel, now: int): (r: Panel)
    requires |p.acks| == ACKS
    ensures |r.acks| == ACKS
  {
    var b := Begin(p, now);
    var e := End(b, now);
    e.(log := e.log + [Beat(now, Pulse(b))])
  }

  /** What the press machine adds to a frame. */
  function Driven(payload: seq<set<nat>>, pulse: Option<Click>): (r: seq<set<nat>>)
    ensures |r| == |payload|
  {
    if pulse.Some? && pulse.value.byte < |payload| then
      payload[pulse.value.byte := payload[pulse.value.byte] + pulse.value.mask]
    else payload
  }

  datatype Op =
    | Exchange(now: int)
    | Press(byte: nat, mask: set<nat>, hold: Option<int>)
    | ClearAll
    | SetHold(ns: int)
    | SetGap(ns: int)

  function Do(p: Panel, op: Op): (r: Panel)
    requires |p.acks| == ACKS
    ensures |r.acks| == ACKS
  {
    match op
    case Exchange(now) => Frame(p, now)
    case Press(byte, mask, hold) => if Accept(p, byte, mask, hold).Some? then Accept(p, byte, mask, hold).value else p
    case ClearAll => Clear(p)
    case SetHold(ns) => p.(holdNs := ns)
    case SetGap(ns) => p.(gapNs := ns)
  }

  function Play(ops: seq<Op>): (r: Panel)
    ensures |r.acks| == ACKS
    decreases |ops|
  {
    if ops == [] then Init() else Do(Play(ops[..|ops| - 1]), ops[|ops| - 1])
  }

  // --------------------------------------------------------------- invariant

  function Clicks(gone: seq<Exit>): (r: seq<Click>)
    ensures |r| == |gone|
  {
    seq(|gone|, i requires 0 <= i < |gone| => gone[i].click)
  }

  /** The clicks that were begun, in order. */
  function Begun(gone: seq<Exit>): seq<Click>
    decreases |gone|
  {
    if gone == [] then []
    else Begun(gone[..|gone| - 1]) + if gone[|gone| - 1].served then [gone[|gone| - 1].click] else []
  }

  function Ended(runs: seq<Run>): (r: seq<Click>)
    ensures |r| == |runs|
  {
    seq(|runs|, i requires 0 <= i < |runs| => runs[i].click)
  }

  /** First in, first out, exactly once: what left and what waits is what was accepted; what was begun has ended or is down. */
  ghost predicate Fifo(p: Panel) {
    && p.accepted == Clicks(p.gone) + p.queue && |p.queue| <= QUEUE
    && Begun(p.gone) == Ended(p.runs) + (if p.phase == Down then [p.active] else [])
    && p.nextId == |p.accepted| + 1 && forall i | 0 <= i < |p.accepted| :: p.accepted[i].id == i + 1
  }

  /** A finished press was on every frame of its run, at least two of them, and for its hold time. */
  ghost predicate RunOk(r: Run, log: seq<Beat>) {
    && 0 <= r.first && r.first + MIN_FRAMES <= r.last + 1 <= |log| && r.upAt - r.downAt >= r.click.hold
    && forall f | r.first <= f <= r.last :: log[f].pulse == Some(r.click)
  }

  /** At least two frames without any press lie before frame `f`, back to the run before. */
  ghost predicate Quiet(log: seq<Beat>, after: int, f: int) {
    0 <= after && after + MIN_FRAMES < f <= |log| && forall k | after < k < f :: log[k].pulse == None
  }

  /** How the tail of the log looks in each phase. */
  ghost predicate Tail(p: Panel) {
    var n := |p.log|;
    match p.phase
    case Down =>
      && 1 <= p.phaseFrames <= n
      && (forall f | n - p.phaseFrames <= f < n :: p.log[f].pulse == Some(p.active))
      && (p.runs != [] ==> Quiet(p.log, p.runs[|p.runs| - 1].last, n - p.phaseFrames))
      && (p.runs == [] ==> forall f | 0 <= f < n - p.phaseFrames :: p.log[f].pulse == None)
    case Up =>
      && p.runs != [] && 0 <= p.runs[|p.runs| - 1].last && p.runs[|p.runs| - 1].last + p.phaseFrames + 1 == n
      && forall f | n - p.phaseFrames <= f < n :: p.log[f].pulse == None
    case Idle =>
      && (p.runs != [] ==> Quiet(p.log, p.runs[|p.runs| - 1].last, n))
      && (p.runs == [] ==> forall f | 0 <= f < n :: p.log[f].pulse == None)
  }

  ghost predicate Spaced(runs: seq<Run>, log: seq<Beat>) {
    && (forall i | 0 <= i < |runs| :: RunOk(runs[i], log))
    && (forall i | 0 < i < |runs| :: Quiet(log, runs[i - 1].last, runs[i].first))
    && (runs != [] ==> runs[0].first <= |log| && forall f | 0 <= f < runs[0].first :: log[f].pulse == None)
  }

  ghost predicate Inv(p: Panel) { |p.acks| == ACKS && Fifo(p) && Tail(p) && Spaced(p.runs, p.log) }

  lemma QuietGrows(log: seq<Beat>, b: Beat, after: int, f: int)
    requires Quiet(log, after, f)
    ensures Quiet(log + [b], after, f)
    ensures f == |log| && b.pulse == None ==> Quiet(log + [b], after, f + 1)
  {
    var more := log + [b];
    assert forall k | after < k < f :: more[k] == log[k];
  }

  lemma SpacedGrows(runs: seq<Run>, log: seq<Beat>, b: Beat)
    requires Spaced(runs, log)
    ensures Spaced(runs, log + [b])
  {
    var more := log + [b];
    forall i | 0 <= i < |runs| ensures RunOk(runs[i], more) {
      assert RunOk(runs[i], log);
      assert forall f | runs[i].first <= f <= runs[i].last :: more[f] == log[f];
    }
    forall i | 0 < i < |runs| ensures Quiet(more, runs[i - 1].last, runs[i].first) {
      QuietGrows(log, b, runs[i - 1].last, runs[i].first);
    }
    if runs != [] {
      assert forall f | 0 <= f < runs[0].first :: more[f] == log[f];
    }
  }

  lemma SpacedEnds(runs: seq<Run>, log: seq<Beat>, r: Run)
    requires Spaced(runs, log) && RunOk(r, log)
    requires runs != [] ==> Quiet(log, runs[|runs| - 1].last, r.first)
    requires runs == [] ==> forall f | 0 <= f < r.first :: log[f].pulse == None
    ensures Spaced(runs + [r], log)
  {
    var more := runs + [r];
    assert r.first <= |log|;
    hide Quiet, RunOk;
    assert forall i | 0 <= i < |runs| :: more[i] == runs[i] && RunOk(runs[i], log);
    forall i | 0 < i < |more| ensures Quiet(log, more[i - 1].last, more[i].first) {
      assert i < |runs| ==> Quiet(log, runs[i - 1].last, runs[i].first);
    }
  }

  /** A frame on which nothing is driven. */
  lemma QuietFrame(p: Panel, now: int)
    requires Inv(p) && (p.phase == Up || (p.phase == Idle && p.queue == []))
    ensures Inv(Frame(p, now))
  {
    var b := Beat(now, None);
    SpacedGrows(p.runs, p.log, b);
    hide Spaced, Clicks, Begun, Ended;
    if p.phase == Idle && p.runs != [] {
      QuietGrows(p.log, b, p.runs[|p.runs| - 1].last, |p.log|);
    }
  }

  lemma FirstFrame(p: Panel, now: int)
    requires Inv(p) && p.phase == Idle && p.queue != []
    ensures Inv(Frame(p, now))
  {
    var b, r := Beat(now, Some(p.queue[0])), Frame(p, now);
    FrameFirst(p, now);
    hide Spaced, Fifo, Tail, Frame;
    SpacedGrows(p.runs, p.log, b);
    FirstTail(p, r, b);
    FirstFifo(p, r);
  }

  lemma FirstFifo(p: Panel, r: Panel)
    requires Fifo(p) && p.phase == Idle && p.queue != []
    requires r.queue == p.queue[1..] && r.phase == Down && r.active == p.queue[0] && r.gone == p.gone + [Exit(p.queue[0], true)]
    requires r.runs == p.runs && r.accepted == p.accepted && r.nextId == p.nextId
    ensures Fifo(r)
  {
    BegunGrows(p.gone, p.queue[0]);
    hide Clicks, Begun, Ended;
    assert p.queue == [p.queue[0]] + p.queue[1..];
  }

  /** What the first frame of a press leaves. */
  lemma FrameFirst(p: Panel, now: int)
    requires |p.acks| == ACKS && p.phase == Idle && p.queue != []
    ensures var r, c := Frame(p, now), p.queue[0];
            && |r.acks| == ACKS
            && r == p.(active := c, queue := p.queue[1..], phase := Down, since := now, phaseFrames := 1,
                       gone := p.gone + [Exit(c, true)], log := p.log + [Beat(now, Some(c))], acks := r.acks)
  {
  }

  lemma FirstTail(p: Panel, r: Panel, b: Beat)
    requires Tail(p) && p.phase == Idle && b.pulse == Some(r.active)
    requires r.phase == Down && r.phaseFrames == 1 && r.log == p.log + [b] && r.runs == p.runs
    ensures Tail(r)
  {
    if p.runs != [] {
      QuietGrows(p.log, b, p.runs[|p.runs| - 1].last, |p.log|);
    }
    assert forall f | 0 <= f < |p.log| :: r.log[f] == p.log[f];
    hide Quiet;
  }

  lemma BegunGrows(gone: seq<Exit>, c: Click)
    ensures Clicks(gone + [Exit(c, true)]) == Clicks(gone) + [c]
    ensures Begun(gone + [Exit(c, true)]) == Begun(gone) + [c]
  {
    assert (gone + [Exit(c, true)])[..|gone|] == gone;
  }

  lemma HeldFrame(p: Panel, now: int)
    requires Inv(p) && p.phase == Down
    ensures Inv(Frame(p, now))
  {
    var b := Beat(now, Some(p.active));
    var first, more := |p.log| - p.phaseFrames, p.log + [b];
    HeldTail(p, b);
    hide Clicks, Begun, Ended, Quiet, Spaced, Tail;
    if p.phaseFrames + 1 >= MIN_FRAMES && now - p.since >= p.active.hold {
      var r := Run(p.active, first, |p.log|, p.since, now);
      HeldEnds(p, b, r);
      assert Ended(p.runs + [r]) == Ended(p.runs) + [p.active] by { EndedGrows(p.runs, r); }
      assert Frame(p, now).runs == p.runs + [r] && Frame(p, now).phase == Up && Frame(p, now).log == more;
      assert Tail(Frame(p, now)) by { UpStarts(Frame(p, now)); }
    } else {
      assert Frame(p, now) == p.(phaseFrames := p.phaseFrames + 1, log := more);
    }
  }

  lemma EndedGrows(runs: seq<Run>, r: Run)
    ensures Ended(runs + [r]) == Ended(runs) + [r.click]
  {
  }

  lemma UpStarts(p: Panel)
    requires p.phase == Up && p.phaseFrames == 0 && p.runs != [] && p.log != [] && p.runs[|p.runs| - 1].last == |p.log| - 1
    ensures Tail(p)
  {
  }

  lemma HeldTail(p: Panel, b: Beat)
    requires Inv(p) && p.phase == Down && b.pulse == Some(p.active)
    ensures Tail(p.(phaseFrames := p.phaseFrames + 1, log := p.log + [b])) && Spaced(p.runs, p.log + [b])
  {
    var more, first := p.log + [b], |p.log| - p.phaseFrames;
    SpacedGrows(p.runs, p.log, b);
    if p.runs != [] {
      QuietGrows(p.log, b, p.runs[|p.runs| - 1].last, first);
    }
    hide Spaced, Fifo, Quiet;
    assert forall f | 0 <= f < |p.log| :: more[f] == p.log[f];
  }

  lemma HeldEnds(p: Panel, b: Beat, r: Run)
    requires |p.acks| == ACKS && p.phase == Down && Tail(p.(phaseFrames := p.phaseFrames + 1, log := p.log + [b]))
    requires Spaced(p.runs, p.log + [b]) && p.phaseFrames + 1 >= MIN_FRAMES && r.upAt - r.downAt >= p.active.hold
    requires r.click == p.active && r.first == |p.log| - p.phaseFrames && r.last == |p.log|
    ensures Spaced(p.runs + [r], p.log + [b])
  {
    assert RunOk(r, p.log + [b]);
    SpacedEnds(p.runs, p.log + [b], r);
    hide Spaced;
  }

  lemma CommandKeeps(p: Panel, op: Op)
    requires Inv(p) && !op.Exchange?
    ensures Inv(Do(p, op))
  {
    hide Spaced, Begun, Ended, Quiet;
    if op.ClearAll? {
      ClearedBegun(p.gone, p.queue);
      assert Clicks(p.gone + Dropped(p.queue)) == Clicks(p.gone) + p.queue;
    }
    hide Clicks, Dropped;
  }

  lemma {:induction false} ClearedBegun(gone: seq<Exit>, cs: seq<Click>)
    ensures Begun(gone + Dropped(cs)) == Begun(gone)
    decreases |cs|
  {
    if cs == [] {
      assert gone + Dropped(cs) == gone;
    } else {
      var front, last := cs[..|cs| - 1], cs[|cs| - 1];
      ClearedBegun(gone, front);
      assert gone + Dropped(cs) == gone + Dropped(front) + [Exit(last, false)];
      assert (gone + Dropped(cs))[..|gone| + |front|] == gone + Dropped(front);
    }
  }

  /** Presses are served first in, first out, exactly once, and never merge, over any run of frames and commands. */
  lemma {:induction false} RunKeeps(ops: seq<Op>)
    ensures Inv(Play(ops))
    decreases |ops|
  {
    if ops != [] {
      var p, op := Play(ops[..|ops| - 1]), ops[|ops| - 1];
      hide Inv, Frame;
      RunKeeps(ops[..|ops| - 1]);
      if op.Exchange? {
        if p.phase == Down {
          HeldFrame(p, op.now);
        } else if p.phase == Idle && p.queue != [] {
          FirstFrame(p, op.now);
        } else {
          QuietFrame(p, op.now);
        }
      } else {
        CommandKeeps(p, op);
      }
    }
  }

  // ------------------------------------------------------------ rising edges

  predicate Matches(c: Click, byte: nat, bit: nat) { c.byte == byte && bit in c.mask }

  predicate High(b: Beat, byte: nat, bit: nat) { b.pulse.Some? && Matches(b.pulse.value, byte, bit) }

  /** The rising edges the press machine puts on a bit that nothing else holds. */
  function Edges(log: seq<Beat>, byte: nat, bit: nat): nat
    decreases |log|
  {
    if log == [] then 0
    else
      var n := |log| - 1;
      Edges(log[..n], byte, bit) + if High(log[n], byte, bit) && (n == 0 || !High(log[n - 1], byte, bit)) then 1 else 0
  }

  function Count(cs: seq<Click>, byte: nat, bit: nat): nat
    decreases |cs|
  {
    if cs == [] then 0
    else Count(cs[..|cs| - 1], byte, bit) + if Matches(cs[|cs| - 1], byte, bit) then 1 else 0
  }

  lemma NextEdge(log: seq<Beat>, b: Beat, byte: nat, bit: nat)
    ensures Edges(log + [b], byte, bit) ==
            Edges(log, byte, bit) + if High(b, byte, bit) && (log == [] || !High(log[|log| - 1], byte, bit)) then 1 else 0
  {
    assert (log + [b])[..|log|] == log;
  }

  lemma FrameEdges(p: Panel, now: int, byte: nat, bit: nat)
    requires Inv(p) && Edges(p.log, byte, bit) == Count(Begun(p.gone), byte, bit)
    ensures var r := Frame(p, now); Edges(r.log, byte, bit) == Count(Begun(r.gone), byte, bit)
  {
    var beat := Beat(now, Carried(p));
    FrameHistory(p, now);
    LastBeat(p);
    hide Inv, Frame, Carried, Begun, Count, Edges;
    NextEdge(p.log, beat, byte, bit);
    if p.phase == Idle && p.queue != [] {
      BegunCount(p.gone, p.queue[0], byte, bit);
    }
  }

  /** What the next frame will carry. */
  function Carried(p: Panel): Option<Click> {
    if p.phase == Idle && p.queue != [] then Some(p.queue[0]) else if p.phase == Down then Some(p.active) else None
  }

  lemma FrameHistory(p: Panel, now: int)
    requires |p.acks| == ACKS
    ensures var r := Frame(p, now);
            && r.log == p.log + [Beat(now, Carried(p))]
            && r.gone == if p.phase == Idle && p.queue != [] then p.gone + [Exit(p.queue[0], true)] else p.gone
    ensures p.phase == Idle && p.queue != [] ==> Carried(p) == Some(p.queue[0])
    ensures p.phase == Down ==> Carried(p) == Some(p.active)
    ensures p.phase == Up || (p.phase == Idle && p.queue == []) ==> Carried(p) == None
  {
  }

  /** The frame before: without a pulse when idle, with the press under way when down. */
  lemma LastBeat(p: Panel)
    requires Inv(p)
    ensures p.phase == Idle ==> p.log == [] || p.log[|p.log| - 1].pulse == None
    ensures p.phase == Down ==> p.log != [] && p.log[|p.log| - 1].pulse == Some(p.active)
  {
    hide Spaced, Fifo;
  }

  lemma BegunCount(gone: seq<Exit>, c: Click, byte: nat, bit: nat)
    ensures Count(Begun(gone + [Exit(c, true)]), byte, bit) == Count(Begun(gone), byte, bit) + if Matches(c, byte, bit) then 1 else 0
  {
    assert (gone + [Exit(c, true)])[..|gone|] == gone;
    var begun := Begun(gone);
    assert Begun(gone + [Exit(c, true)]) == begun + [c];
    assert (begun + [c])[..|begun|] == begun;
  }

  /** `n` clicks of a bit that is not otherwise held give exactly `n` rising edges, whatever else is pressed. */
  lemma {:induction false} ClicksAreEdges(ops: seq<Op>, byte: nat, bit: nat)
    ensures Edges(Play(ops).log, byte, bit) == Count(Begun(Play(ops).gone), byte, bit)
    decreases |ops|
  {
    if ops != [] {
      var p, op := Play(ops[..|ops| - 1]), ops[|ops| - 1];
      ClicksAreEdges(ops[..|ops| - 1], byte, bit);
      RunKeeps(ops[..|ops| - 1]);
      assert Play(ops) == Do(p, op);
      hide *;
      if op.Exchange? {
        FrameEdges(p, op.now, byte, bit);
        DoFrame(p, op);
      } else {
        CommandHistory(p, op);
      }
    } else {
      hide Frame;
    }
  }

  lemma DoFrame(p: Panel, op: Op)
    requires |p.acks| == ACKS && op.Exchange?
    ensures Do(p, op) == Frame(p, op.now)
  {
    hide Frame;
  }

  /** A command drives nothing and begins nothing. */
  lemma CommandHistory(p: Panel, op: Op)
    requires |p.acks| == ACKS && !op.Exchange?
    ensures Do(p, op).log == p.log && Begun(Do(p, op).gone) == Begun(p.gone)
  {
    ClearedBegun(p.gone, p.queue);
    hide Begun, Dropped, Frame;
  }

  // --------------------------------------------------------- acknowledgements

  /** A press's record says where the press is, for the 32 newest presses. */
  ghost predicate Recorded(p: Panel) {
    && |p.acks| == ACKS && p.nextId == |p.accepted| + 1
    && (forall k | 0 <= k < ACKS :: p.acks[k].id < p.nextId)
    && forall id | 0 < id < p.nextId :: Slot(p, id).Some? <==> p.nextId - id <= ACKS
  }

  lemma SlotsDistinct(a: nat, b: nat)
    requires a < b && a % ACKS == b % ACKS
    ensures b - a >= ACKS
  {
  }

  lemma AcceptRecords(p: Panel, byte: nat, mask: set<nat>, hold: Option<int>)
    requires Recorded(p) && |p.queue| < QUEUE
    ensures Recorded(Accept(p, byte, mask, hold).value)
  {
    var q := Accept(p, byte, mask, hold).value;
    forall id | 0 < id < q.nextId ensures Slot(q, id).Some? <==> q.nextId - id <= ACKS {
      if id < p.nextId {
        if id % ACKS == p.nextId % ACKS {
          SlotsDistinct(id, p.nextId);
        } else {
          assert Slot(p, id).Some? <==> p.nextId - id <= ACKS;
          assert p.nextId - id != ACKS;
        }
      }
    }
  }

  lemma MarksRecord(p: Panel, id: nat, now: int)
    requires Recorded(p)
    ensures Recorded(AckDown(p, id, now)) && Recorded(AckDone(p, id, now))
  {
    var d, e := AckDown(p, id, now), AckDone(p, id, now);
    forall k | 0 < k < p.nextId ensures Slot(d, k) == Slot(p, k) && Slot(e, k) == Slot(p, k) {
    }
  }

  lemma FrameRecords(p: Panel, now: int)
    requires Recorded(p)
    ensures Recorded(Frame(p, now))
  {
    hide Slot;
    var b := Begin(p, now);
    if p.phase == Idle && p.queue != [] {
      var q := p.(active := p.queue[0], queue := p.queue[1..], phase := Down, since := now, phaseFrames := 0,
                  gone := p.gone + [Exit(p.queue[0], true)]);
      SameRecords(p, q);
      MarksRecord(q, p.queue[0].id, now);
    }
    EndRecords(b, now);
    SameRecords(End(b, now), Frame(p, now));
  }

  lemma SameRecords(p: Panel, q: Panel)
    requires Recorded(p) && q.acks == p.acks && q.nextId == p.nextId && q.accepted == p.accepted
    ensures Recorded(q)
  {
    assert forall id: nat :: Slot(q, id) == Slot(p, id);
  }

  lemma EndRecords(b: Panel, now: int)
    requires Recorded(b)
    ensures Recorded(End(b, now))
  {
    var e := End(b, now);
    if b.phase == Down && e.phase == Up {
      var q := b.(phaseFrames := 0, phase := Up, since := now, runs := e.runs);
      SameRecords(b, q);
      MarksRecord(q, b.active.id, now);
    } else {
      SameRecords(b, e);
    }
    hide Recorded;
  }

  /** Asking after a press finds its record exactly while at most 31 presses have been taken in after it. */
  lemma {:induction false} AcksFound(ops: seq<Op>)
    ensures Recorded(Play(ops))
    decreases |ops|
  {
    if ops != [] {
      var p, op := Play(ops[..|ops| - 1]), ops[|ops| - 1];
      AcksFound(ops[..|ops| - 1]);
      hide Recorded, Frame, Accept;
      match op
      case Exchange(now) => FrameRecords(p, now);
      case Press(byte, mask, hold) =>
        AcceptIff(p, byte, mask, hold);
        if |p.queue| < QUEUE {
          AcceptRecords(p, byte, mask, hold);
        }
      case _ => SameRecords(p, Do(p, op));
    }
  }

  lemma AcceptIff(p: Panel, byte: nat, mask: set<nat>, hold: Option<int>)
    requires |p.acks| == ACKS
    ensures Accept(p, byte, mask, hold).Some? <==> |p.queue| < QUEUE
  {
  }

  lemma {:induction false} BegunHas(gone: seq<Exit>, c: Click) returns (n: nat)
    requires c in Begun(gone)
    ensures n < |gone| && gone[n].click == c
    decreases |gone|
  {
    var last := |gone| - 1;
    if gone[last].served && gone[last].click == c {
      n := last;
    } else {
      n := BegunHas(gone[..last], c);
    }
  }

  /** The press being driven has been accepted, under its number. */
  lemma ActiveAccepted(p: Panel)
    requires Inv(p) && p.phase == Down
    ensures 0 < p.active.id <= |p.gone| && p.accepted[p.active.id - 1] == p.active
  {
    var begun := Begun(p.gone);
    assert begun[|begun| - 1] == p.active && p.active in begun;
    hide Tail, Spaced, Begun, Ended;
    var n := BegunHas(p.gone, p.active);
    assert p.accepted[n] == Clicks(p.gone)[n] == p.active;
  }

  /**
   Exactly when the press being driven cannot be asked after: when 32 or more presses have been
   accepted since, as they have whenever the queue behind it is full.
   */
  lemma ActiveForgotten(ops: seq<Op>)
    requires Play(ops).phase == Down
    ensures var p := Play(ops);
            && (Slot(p, p.active.id).None? <==> |p.accepted| >= p.active.id + ACKS)
            && (|p.queue| == QUEUE ==> Slot(p, p.active.id).None?)
  {
    var p := Play(ops);
    RunKeeps(ops);
    AcksFound(ops);
    ActiveAccepted(p);
    hide Tail, Spaced, Begun, Ended, Slot, Play;
    assert |p.accepted| == |p.gone| + |p.queue|;
  }

  /** A press, a frame that begins it, and `n` presses more. */
  function Burst(n: nat): seq<Op> {
    if n == 0 then [Press(0, {0}, None), Exchange(0)] else Burst(n - 1) + [Press(0, {0}, None)]
  }

  lemma PlayOne(ops: seq<Op>, op: Op)
    ensures Play(ops + [op]) == Do(Play(ops), op)
  {
    assert (ops + [op])[..|ops|] == ops;
    hide Do;
  }

  lemma PressQueues(p: Panel)
    requires |p.acks| == ACKS && |p.queue| < QUEUE
    ensures var r := Do(p, Press(0, {0}, None)); r.phase == p.phase && |r.queue| == |p.queue| + 1
  {
  }

  lemma FrameBegins(p: Panel)
    requires |p.acks| == ACKS && p.phase == Idle && |p.queue| == 1
    ensures var r := Do(p, Exchange(0)); r.phase == Down && r.queue == []
  {
  }

  lemma {:induction false} BurstFills(n: nat)
    requires n <= QUEUE
    ensures Play(Burst(n)).phase == Down && |Play(Burst(n)).queue| == n
  {
    hide Do;
    if n == 0 {
      var press := [] + [Press(0, {0}, None)];
      assert Burst(0) == press + [Exchange(0)];
      PlayOne([], Press(0, {0}, None));
      PlayOne(press, Exchange(0));
      hide Play, Burst;
      assert Play([]) == Init() by { PlayNone(); }
      PressQueues(Init());
      FrameBegins(Play(press));
    } else {
      BurstFills(n - 1);
      PlayOne(Burst(n - 1), Press(0, {0}, None));
      PressQueues(Play(Burst(n - 1)));
    }
  }

  lemma PlayNone()
    ensures Play([]) == Init()
  {
  }

  /** Such a run: after 34 commands and frames the press being driven is forgotten. */
  lemma ForgottenRun()
    ensures var p := Play(Burst(QUEUE)); p.phase == Down && |p.queue| == QUEUE && Slot(p, p.active.id).None?
  {
    BurstFills(QUEUE);
    ActiveForgotten(Burst(QUEUE));
    hide Play, Burst, Slot;
  }

  // -------------------------------------------------------- analogue fields

  /** One frame's step towards the target, never more than `step`. */
  function Ramp(value: int, target: int, step: nat): int {
    var delta := target - value;
    value + if delta > step then step else if delta < 0 - step then 0 - step else delta
  }

  function Ramped(value: int, target: int, step: nat, n: nat): int {
    if n == 0 then value else Ramp(Ramped(value, target, step, n - 1), target, step)
  }

  /** A rotary turns one way only, evenly, and stops on its target without passing it. */
  lemma {:induction false} RampCloses(value: int, target: int, step: nat, n: nat)
    ensures Ramped(value, target, step, n) ==
            if target - value > n * step then value + n * step
            else if value - target > n * step then value - n * step else target
  {
    if n > 0 {
      RampCloses(value, target, step, n - 1);
      assert n * step == (n - 1) * step + step;
    }
  }

  // ----------------------------------------------------- the panel in place

  class Machine {
    const slots: array<Click>
    const records: array<Ack>
    var head: nat
    var count: nat
    var phase: Phase
    var active: Click
    var since: int
    var phaseFrames: nat
    var holdNs: int
    var gapNs: int
    var nextId: nat
    var log: seq<Beat>
    var runs: seq<Run>
    var accepted: seq<Click>
    var gone: seq<Exit>

    ghost predicate Valid()
      reads this
    {
      slots.Length == QUEUE && records.Length == ACKS && head < QUEUE && count <= QUEUE
    }

    ghost function State(): Panel
      reads this, slots, records
      requires Valid()
    {
      Panel(Ring(slots[..], head, count), phase, active, since, phaseFrames, holdNs, gapNs, nextId, records[..],
            log, runs, accepted, gone)
    }

    constructor ()
      ensures Valid() && State() == Init() && fresh(slots) && fresh(records)
    {
      slots := new Click[QUEUE](i => NO_CLICK);
      records := new Ack[ACKS](i => NO_ACK);
      head, count, phase, active, since, phaseFrames := 0, 0, Idle, NO_CLICK, 0, 0;
      holdNs, gapNs, nextId := 300_000_000, 300_000_000, 1;
      log, runs, accepted, gone := [], [], [], [];
      new;
      assert records[..] == seq(ACKS, i => NO_ACK);
    }

    /** The press command. */
    method Enqueue(byte: nat, mask: set<nat>, hold: Option<int>) returns (ok: bool)
      requires Valid()
      modifies this, slots, records
      ensures Valid() && State() == Do(old(State()), Press(byte, mask, hold))
      ensures ok == (|old(State()).queue| < QUEUE)
    {
      if count >= QUEUE {
        return false;
      }
      hide Ring;
      var c := Click(byte, mask, if hold.Some? then hold.value else holdNs, nextId);
      Append(c);
      records[nextId % ACKS] := NO_ACK.(id := nextId);
      nextId := nextId + 1;
      accepted := accepted + [c];
      return true;
    }

    method Append(c: Click)
      requires Valid() && count < QUEUE
      modifies this`count, slots
      ensures Valid() && State() == old(State()).(queue := old(State()).queue + [c])
    {
      RingPush(slots[..], head, count, c);
      hide Ring;
      slots[(head + count) % QUEUE] := c;
      count := count + 1;
    }

    /** Start the next click if the panel is idle. */
    method TakeNext(now: int)
      requires Valid()
      modifies this, records
      ensures Valid() && State() == Begin(old(State()), now)
    {
      if phase == Idle && count != 0 {
        RingPop(slots[..], head, count);
        hide Ring, AckDown;
        active := slots[head];
        gone := gone + [Exit(active, true)];
        head := (head + 1) % QUEUE;
        count := count - 1;
        phase, since, phaseFrames := Down, now, 0;
        MarkDown(active.id, now);
      }
    }

    /** Note in its record that a press is down. */
    method MarkDown(id: nat, now: int)
      requires Valid()
      modifies records
      ensures Valid() && State() == AckDown(old(State()), id, now)
    {
      hide Ring;
      var k := id % ACKS;
      if records[k].id == id {
        records[k] := records[k].(down := true, first := |log| + 1, downAt := now);
      }
    }

    /** Note in its record that a press is over. */
    method MarkDone(id: nat, now: int)
      requires Valid()
      modifies records
      ensures Valid() && State() == AckDone(old(State()), id, now)
    {
      hide Ring;
      var k := id % ACKS;
      if records[k].id == id {
        records[k] := records[k].(done := true, last := |log| + 1, upAt := now);
      }
    }

    method Advance(now: int)
      requires Valid()
      modifies this`phase, this`since, this`phaseFrames, this`runs, records
      ensures Valid() && State() == End(old(State()), now)
    {
      hide Ring, AckDone;
      ghost var p := State();
      if phase == Down {
        phaseFrames := phaseFrames + 1;
        if phaseFrames >= MIN_FRAMES && now - since >= active.hold {
          runs := runs + [Run(active, |log| + 1 - phaseFrames, |log|, since, now)];
          phase, since, phaseFrames := Up, now, 0;
          assert State() == p.(phase := Up, since := now, phaseFrames := 0, runs := runs);
          MarkDone(active.id, now);
        } else {
          assert State() == p.(phaseFrames := phaseFrames);
        }
      } else if phase == Up {
        phaseFrames := phaseFrames + 1;
        if phaseFrames >= MIN_FRAMES && now - since >= gapNs {
          phase := Idle;
        }
      }
    }

    /** One panel exchange: the payload gains the bits of the press under way. */
    method Exchange(payload: array<set<nat>>, now: int)
      requires Valid()
      modifies this, records, payload
      ensures Valid() && State() == Frame(old(State()), now)
      ensures payload[..] == Driven(old(payload[..]), Pulse(Begin(old(State()), now)))
    {
      hide Begin, End, Ring;
      TakeNext(now);
      ghost var b := State();
      if phase == Down && active.byte < payload.Length {
        payload[active.byte] := payload[active.byte] + active.mask;
      }
      ghost var pulse := Pulse(b);
      var beat := Beat(now, if phase == Down then Some(active) else None);
      Advance(now);
      log := log + [beat];
    }
  }
}
