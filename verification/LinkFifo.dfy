/**
 The receive half of the serial link to the GUI board: bytes are gathered into frames, and
 frames go into the guest's one buffer one per acknowledge, spaced by a gap, with a bounded
 queue in front and a watchdog behind.  Default mode: queue on, hand-over on acknowledge.

 First the operations and what any interleaving of them keeps (`RunKeeps`), then what is
 dropped (`RunDropsLate`), how long a frame can wait (`NoStarvation`, `FrameLeaves`), and
 which bytes the backlog pump keeps (`BytesKeptExactly`).
 */
module LinkFifo {
  import opened Common

  type Frame = seq<Byte>

  const QUEUE_MAX: nat := 64
  const RX_MAX: nat := 512
  const BACKLOG_MAX: nat := 65536
  const WATCHDOG_NS: nat := 50_000_000

  /** The least time between two frames, 2 ms unless configured, and the status bits a frame sets. */
  datatype Config = Config(gap: nat, rxStatus: set<nat>)

  /** A frame that has left the queue: handed over at a time, or dropped. */
  datatype Exit = Exit(frame: Frame, at: Option<int>)

  datatype Link = Link(
    now: int,
    start: bool, buffer: bool, frame: nat,
    rx: seq<Byte>, backlog: seq<Byte>,
    queue: seq<Frame>,
    pending: bool, deliveredAt: int, status: set<nat>,
    watchdog: Option<int>, gapTimer: Option<int>,
    /* History: every frame completed, and every frame that has left, oldest first. */
    arrived: seq<Frame>, gone: seq<Exit>)

  function Deliver(c: Config, l: Link, f: Frame): Link {
    l.(status := l.status + c.rxStatus, pending := true, deliveredAt := l.now,
       watchdog := Some(l.now + WATCHDOG_NS), gone := l.gone + [Exit(f, Some(l.now))])
  }

  /** The buffer may be free: hand the oldest frame over, or arm the gap timer. */
  function Release(c: Config, l: Link): Link {
    if l.pending || l.queue == [] then l
    else if l.now < l.deliveredAt + c.gap then
      if l.gapTimer.None? then l.(gapTimer := Some(l.deliveredAt + c.gap)) else l
    else Deliver(c, l.(queue := l.queue[1..]), l.queue[0])
  }

  /** Acknowledged or re-armed. */
  function Next(c: Config, l: Link): Link { Release(c, l.(pending := false, watchdog := None)) }

  /** The oldest frame makes room when the queue is full. */
  function MakeRoom(l: Link): Link {
    if |l.queue| == QUEUE_MAX then l.(queue := l.queue[1..], gone := l.gone + [Exit(l.queue[0], None)]) else l
  }

  /** A whole frame has arrived. */
  function Push(c: Config, l: Link, f: Frame): Link {
    var a := l.(arrived := l.arrived + [f]);
    if l.pending || l.queue != [] || l.now < l.deliveredAt + c.gap then
      var m := MakeRoom(a);
      Release(c, m.(queue := m.queue + [f]))
    else Deliver(c, a, f)
  }

  /** Bytes from the wire; what does not fit the buffer is cut off, and a frame completed discards the rest. */
  function Receive(c: Config, l: Link, data: seq<Byte>): Link {
    if data == [] || l.frame == 0 || |l.rx| > RX_MAX then l
    else
      var rx := l.rx + data[..Min(|data|, RX_MAX - |l.rx|)];
      if |rx| < l.frame then l.(rx := rx) else Push(c, l.(rx := []), rx[..l.frame])
  }

  function Room(l: Link): int {
    if !l.start || l.frame == 0 || !l.buffer then 0 else l.frame - |l.rx|
  }

  /** Feed what waits in the backlog, never more at once than the frame under way still needs. */
  function Pump(c: Config, l: Link): Link
    decreases |l.backlog|
  {
    if l.backlog == [] || Room(l) <= 0 then l
    else
      var n := Min(|l.backlog|, Room(l));
      var rest := l.backlog[n..];
      ReceiveFrame(c, l, l.backlog[..n]);
      Pump(c, Receive(c, l, l.backlog[..n]).(backlog := rest))
  }

  lemma ReceiveFrame(c: Config, l: Link, data: seq<Byte>)
    ensures var r := Receive(c, l, data);
            r.backlog == l.backlog && r.frame == l.frame && r.start == l.start && r.buffer == l.buffer && r.now == l.now
  {
    hide Push;
    if data != [] && l.frame != 0 && |l.rx| <= RX_MAX {
      var rx := l.rx + data[..Min(|data|, RX_MAX - |l.rx|)];
      if |rx| >= l.frame {
        PushFrame(c, l.(rx := []), rx[..l.frame]);
      }
    }
  }

  lemma PushFrame(c: Config, l: Link, f: Frame)
    ensures var r := Push(c, l, f);
            r.backlog == l.backlog && r.frame == l.frame && r.start == l.start && r.buffer == l.buffer && r.now == l.now
  {
    var m := MakeRoom(l.(arrived := l.arrived + [f]));
    ReleaseFrame(c, m.(queue := m.queue + [f]));
    hide Release;
  }

  lemma ReleaseFrame(c: Config, l: Link)
    ensures var r := Release(c, l);
            r.backlog == l.backlog && r.frame == l.frame && r.start == l.start && r.buffer == l.buffer && r.now == l.now
  {
  }

  /** Request bytes whose guest time has come; a backlog they would overflow is dropped. */
  function Request(c: Config, l: Link, data: seq<Byte>): Link {
    if |data| > BACKLOG_MAX - |l.backlog| then
      if |data| > BACKLOG_MAX then l.(backlog := []) else Pump(c, l.(backlog := data))
    else Pump(c, l.(backlog := l.backlog + data))
  }

  datatype Op =
    | Elapse(t: int)
    | GapFires
    | WatchdogFires
    | Bytes(data: seq<Byte>)
    | Requested(data: seq<Byte>)
    | Ack(bits: set<nat>)
    | Control(start: bool)
    | Registers(buffer: bool, frame: nat)
    | Mirror(frame: nat)
    | Poll

  predicate Enabled(l: Link, op: Op) {
    match op
    case Elapse(t) => t >= l.now
    case GapFires => l.gapTimer.Some? && l.gapTimer.value <= l.now
    case WatchdogFires => l.watchdog.Some? && l.watchdog.value <= l.now
    case _ => true
  }

  function Do(c: Config, l: Link, op: Op): Link {
    match op
    case Elapse(t) => l.(now := t)
    case GapFires => Release(c, l.(gapTimer := None))
    case WatchdogFires =>
      var f := l.(watchdog := None);
      if f.pending then Next(c, f) else f
    case Bytes(data) => Receive(c, l, data)
    case Requested(data) => Request(c, l, data)
    case Ack(bits) =>
      var a := l.(status := l.status - set b | b in bits && b < 5);
      if a.pending && a.status * c.rxStatus == {} then Next(c, a) else a
    case Control(start) =>
      var a := l.(start := start);
      if start && !l.start then Pump(c, if l.pending then Next(c, a) else a) else a
    case Registers(buffer, frame) => Pump(c, l.(buffer := buffer, frame := frame))
    case Mirror(frame) => l.(frame := frame)
    case Poll => Pump(c, l)
  }

  function Init(): Link {
    Link(0, false, false, 0, [], [], [], false, 0, {}, None, None, [], [])
  }

  // --------------------------------------------------------------- invariant

  function Frames(gone: seq<Exit>): (r: seq<Frame>)
    ensures |r| == |gone|
  {
    seq(|gone|, i requires 0 <= i < |gone| => gone[i].frame)
  }

  /** The frames handed over, with their times. */
  function Handed(gone: seq<Exit>): seq<Exit>
    decreases |gone|
  {
    if gone == [] then []
    else Handed(gone[..|gone| - 1]) + if gone[|gone| - 1].at.Some? then [gone[|gone| - 1]] else []
  }

  ghost predicate Spaced(times: seq<Exit>, gap: nat, last: int) {
    && (forall i | 0 <= i < |times| :: times[i].at.Some? && times[i].at.value <= last)
    && (forall i, j | 0 <= i < j < |times| :: times[i].at.Some? && times[j].at.Some? && times[i].at.value + gap <= times[j].at.value)
  }

  /** Nothing lost but by dropping the oldest: what has left and what waits is what arrived, in order. */
  ghost predicate Kept(l: Link) {
    l.arrived == Frames(l.gone) + l.queue && |l.queue| <= QUEUE_MAX && |l.rx| <= RX_MAX
  }

  ghost predicate Timed(c: Config, l: Link) {
    && l.deliveredAt <= l.now
    && l.watchdog == (if l.pending then Some(l.deliveredAt + WATCHDOG_NS) else None)
    && (l.gapTimer.Some? ==> l.gapTimer.value <= l.deliveredAt + c.gap)
  }

  /** Something always stands ready to move a waiting frame: the watchdog behind a pending one, or the gap timer. */
  ghost predicate Moving(l: Link) {
    l.queue != [] && !l.pending ==> l.gapTimer.Some?
  }

  ghost predicate Base(c: Config, l: Link) {
    Kept(l) && Timed(c, l) && Spaced(Handed(l.gone), c.gap, l.deliveredAt)
  }

  ghost predicate Inv(c: Config, l: Link) { Base(c, l) && Moving(l) }

  lemma HandedGrows(gone: seq<Exit>, e: Exit)
    ensures Handed(gone + [e]) == Handed(gone) + if e.at.Some? then [e] else []
  {
    assert (gone + [e])[..|gone|] == gone;
  }

  lemma FramesGrow(gone: seq<Exit>, e: Exit)
    ensures Frames(gone + [e]) == Frames(gone) + [e.frame]
  {
  }

  /** A hand-over takes the next frame of the order; the gap since the last one is up. */
  lemma DeliverKeeps(c: Config, l: Link, f: Frame)
    requires !l.pending && l.deliveredAt + c.gap <= l.now && Timed(c, l) && Spaced(Handed(l.gone), c.gap, l.deliveredAt)
    requires |l.queue| <= QUEUE_MAX && |l.rx| <= RX_MAX && l.arrived == Frames(l.gone) + [f] + l.queue
    ensures Inv(c, Deliver(c, l, f))
  {
    HandedGrows(l.gone, Exit(f, Some(l.now)));
    FramesGrow(l.gone, Exit(f, Some(l.now)));
    hide Handed, Frames;
  }

  lemma ReleaseKeeps(c: Config, l: Link)
    requires Base(c, l)
    ensures Inv(c, Release(c, l))
  {
    if !l.pending && l.queue != [] && l.now >= l.deliveredAt + c.gap {
      hide Frames, Handed, Spaced;
      assert l.arrived == Frames(l.gone) + [l.queue[0]] + l.queue[1..];
      DeliverKeeps(c, l.(queue := l.queue[1..]), l.queue[0]);
    }
    hide Frames, Handed, Spaced;
  }

  lemma NextKeeps(c: Config, l: Link)
    requires Base(c, l)
    ensures Inv(c, Next(c, l))
  {
    hide Frames, Handed, Spaced;
    ReleaseKeeps(c, l.(pending := false, watchdog := None));
  }

  lemma PushKeeps(c: Config, l: Link, f: Frame)
    requires Inv(c, l)
    ensures Inv(c, Push(c, l, f))
  {
    var a := l.(arrived := l.arrived + [f]);
    var m := MakeRoom(a);
    hide Handed, Spaced, Frames, Release, Deliver;
    if l.pending || l.queue != [] || l.now < l.deliveredAt + c.gap {
      RoomKeeps(c, l, f);
      ReleaseKeeps(c, m.(queue := m.queue + [f]));
    } else {
      DeliverKeeps(c, a, f);
    }
  }

  lemma RoomKeeps(c: Config, l: Link, f: Frame)
    requires Inv(c, l)
    ensures var m := MakeRoom(l.(arrived := l.arrived + [f])); Base(c, m.(queue := m.queue + [f]))
  {
    hide Handed, Spaced, Frames;
    if |l.queue| == QUEUE_MAX {
      HandedGrows(l.gone, Exit(l.queue[0], None));
      FramesGrow(l.gone, Exit(l.queue[0], None));
      assert l.queue == [l.queue[0]] + l.queue[1..] && Handed(l.gone) + [] == Handed(l.gone);
    }
  }

  lemma ReceiveKeeps(c: Config, l: Link, data: seq<Byte>)
    requires Inv(c, l)
    ensures Inv(c, Receive(c, l, data))
  {
    hide Handed, Spaced, Frames, Push;
    if data != [] && l.frame != 0 {
      var rx := l.rx + data[..Min(|data|, RX_MAX - |l.rx|)];
      if |rx| >= l.frame {
        PushKeeps(c, l.(rx := []), rx[..l.frame]);
      }
    }
  }

  lemma {:induction false} PumpKeeps(c: Config, l: Link)
    requires Inv(c, l)
    ensures Inv(c, Pump(c, l))
    decreases |l.backlog|
  {
    if l.backlog != [] && Room(l) > 0 {
      var n := Min(|l.backlog|, Room(l));
      ReceiveKeeps(c, l, l.backlog[..n]);
      BacklogFree(c, Receive(c, l, l.backlog[..n]), l.backlog[n..]);
      hide Inv, Receive;
      PumpKeeps(c, Receive(c, l, l.backlog[..n]).(backlog := l.backlog[n..]));
    }
  }

  lemma BacklogFree(c: Config, l: Link, backlog: seq<Byte>)
    requires Inv(c, l)
    ensures Inv(c, l.(backlog := backlog))
  {
    hide Handed, Spaced, Frames;
  }

  /** The safety of the link, step by step. */
  lemma DoKeeps(c: Config, l: Link, op: Op)
    requires Inv(c, l) && Enabled(l, op)
    ensures Inv(c, Do(c, l, op))
  {
    hide Handed, Spaced, Frames, Pump, Receive;
    match op
    case Elapse(_) =>
    case GapFires => ReleaseKeeps(c, l.(gapTimer := None));
    case WatchdogFires =>
      assert l.pending;
      WatchdogIsNext(c, l);
      NextKeeps(c, l);
    case Bytes(data) => ReceiveKeeps(c, l, data);
    case Requested(data) => RequestKeeps(c, l, data);
    case Ack(bits) =>
      NextKeeps(c, l.(status := l.status - set b | b in bits && b < 5));
    case Control(start) =>
      var a := l.(start := start);
      NextKeeps(c, a);
      PumpKeeps(c, if l.pending then Next(c, a) else a);
    case Registers(buffer, frame) => PumpKeeps(c, l.(buffer := buffer, frame := frame));
    case Mirror(_) =>
    case Poll => PumpKeeps(c, l);
  }

  lemma WatchdogIsNext(c: Config, l: Link)
    ensures Next(c, l.(watchdog := None)) == Next(c, l)
  {
  }

  lemma RequestKeeps(c: Config, l: Link, data: seq<Byte>)
    requires Inv(c, l)
    ensures Inv(c, Request(c, l, data))
  {
    hide Handed, Spaced, Frames, Pump;
    PumpKeeps(c, l.(backlog := data));
    PumpKeeps(c, l.(backlog := l.backlog + data));
  }

  // --------------------------------------------------------------- whole runs

  ghost predicate Allowed(c: Config, ops: seq<Op>)
    decreases |ops|
  {
    ops == [] || (Allowed(c, ops[..|ops| - 1]) && Enabled(Play(c, ops[..|ops| - 1]), ops[|ops| - 1]))
  }

  function Play(c: Config, ops: seq<Op>): Link
    decreases |ops|
  {
    if ops == [] then Init() else Do(c, Play(c, ops[..|ops| - 1]), ops[|ops| - 1])
  }

  /**
   Any interleaving of arrivals, acknowledges, re-arms and timers: what left is an initial
   part of what arrived and the rest waits; hand-overs are at least the gap apart; and a
   waiting frame always has the watchdog or the gap timer behind it.
   */
  lemma {:induction false} RunKeeps(c: Config, ops: seq<Op>)
    requires Allowed(c, ops)
    ensures Inv(c, Play(c, ops))
    decreases |ops|
  {
    hide Do, Enabled;
    if ops == [] {
      assert Handed([]) == [];
    } else {
      hide Inv;
      RunKeeps(c, ops[..|ops| - 1]);
      DoKeeps(c, Play(c, ops[..|ops| - 1]), ops[|ops| - 1]);
    }
  }

  /** A frame is dropped only once 64 later ones have arrived. */
  ghost predicate DropsLate(l: Link) {
    forall k | 0 <= k < |l.gone| && l.gone[k].at.None? :: k + QUEUE_MAX < |l.arrived|
  }

  lemma ReleaseDropsLate(c: Config, l: Link)
    requires DropsLate(l)
    ensures DropsLate(Release(c, l))
  {
  }

  lemma PushDropsLate(c: Config, l: Link, f: Frame)
    requires Kept(l) && DropsLate(l)
    ensures DropsLate(Push(c, l, f))
  {
    if l.pending || l.queue != [] || l.now < l.deliveredAt + c.gap {
      var m := MakeRoom(l.(arrived := l.arrived + [f]));
      ReleaseDropsLate(c, m.(queue := m.queue + [f]));
      hide Release;
    }
  }

  lemma {:induction false} PumpDropsLate(c: Config, l: Link)
    requires Inv(c, l) && DropsLate(l)
    ensures DropsLate(Pump(c, l))
    decreases |l.backlog|
  {
    if l.backlog != [] && Room(l) > 0 {
      var n := Min(|l.backlog|, Room(l));
      ReceiveKeeps(c, l, l.backlog[..n]);
      ReceiveDropsLate(c, l, l.backlog[..n]);
      BacklogFree(c, Receive(c, l, l.backlog[..n]), l.backlog[n..]);
      var r := Receive(c, l, l.backlog[..n]).(backlog := l.backlog[n..]);
      assert DropsLate(r);
      hide Receive, Inv, DropsLate;
      PumpDropsLate(c, r);
    }
  }

  lemma ReceiveDropsLate(c: Config, l: Link, data: seq<Byte>)
    requires Inv(c, l) && DropsLate(l)
    ensures DropsLate(Receive(c, l, data))
  {
    hide Handed, Spaced, Push;
    if data != [] && l.frame != 0 {
      var rx := l.rx + data[..Min(|data|, RX_MAX - |l.rx|)];
      if |rx| >= l.frame {
        PushDropsLate(c, l.(rx := []), rx[..l.frame]);
      }
    }
  }

  lemma DoDropsLate(c: Config, l: Link, op: Op)
    requires Inv(c, l) && DropsLate(l)
    ensures DropsLate(Do(c, l, op))
  {
    hide Handed, Spaced, Frames, Pump, Receive, Release;
    match op
    case Elapse(_) =>
    case GapFires => ReleaseDropsLate(c, l.(gapTimer := None));
    case WatchdogFires => ReleaseDropsLate(c, l.(watchdog := None, pending := false));
    case Bytes(data) => ReceiveDropsLate(c, l, data);
    case Requested(data) =>
      PumpDropsLate(c, l.(backlog := data));
      PumpDropsLate(c, l.(backlog := l.backlog + data));
    case Ack(bits) =>
      ReleaseDropsLate(c, l.(status := l.status - (set b | b in bits && b < 5), pending := false, watchdog := None));
    case Control(start) =>
      var a := l.(start := start);
      ReleaseDropsLate(c, a.(pending := false, watchdog := None));
      NextKeeps(c, a);
      PumpDropsLate(c, if l.pending then Next(c, a) else a);
    case Registers(buffer, frame) => PumpDropsLate(c, l.(buffer := buffer, frame := frame));
    case Mirror(_) =>
    case Poll => PumpDropsLate(c, l);
  }

  lemma {:induction false} RunDropsLate(c: Config, ops: seq<Op>)
    requires Allowed(c, ops)
    ensures DropsLate(Play(c, ops))
    decreases |ops|
  {
    if ops != [] {
      hide Do, Enabled;
      RunKeeps(c, ops[..|ops| - 1]);
      hide Inv;
      RunDropsLate(c, ops[..|ops| - 1]);
      DoDropsLate(c, Play(c, ops[..|ops| - 1]), ops[|ops| - 1]);
      hide DropsLate;
    }
  }

  // ------------------------------------------- one frame for each acknowledge

  /** What may move the queue while a frame is pending: an acknowledge, a re-arm, the watchdog. */
  predicate HandsOver(op: Op) { op.Ack? || op.Control? || op.WatchdogFires? }

  ghost predicate Holds(l: Link, r: Link) {
    r.pending && r.deliveredAt == l.deliveredAt && Handed(r.gone) == Handed(l.gone)
  }

  lemma PushHolds(c: Config, l: Link, f: Frame)
    requires l.pending
    ensures Holds(l, Push(c, l, f))
  {
    if |l.queue| == QUEUE_MAX {
      HandedGrows(l.gone, Exit(l.queue[0], None));
      assert Handed(l.gone) + [] == Handed(l.gone);
    }
    hide Handed;
  }

  lemma ReceiveHolds(c: Config, l: Link, data: seq<Byte>)
    requires l.pending
    ensures Holds(l, Receive(c, l, data))
  {
    hide Handed, Push;
    if data != [] && l.frame != 0 && |l.rx| <= RX_MAX {
      var rx := l.rx + data[..Min(|data|, RX_MAX - |l.rx|)];
      if |rx| >= l.frame {
        PushHolds(c, l.(rx := []), rx[..l.frame]);
      }
    }
  }

  lemma {:induction false} PumpHolds(c: Config, l: Link)
    requires l.pending
    ensures Holds(l, Pump(c, l))
    decreases |l.backlog|
  {
    hide Handed, Receive;
    if l.backlog != [] && Room(l) > 0 {
      var n := Min(|l.backlog|, Room(l));
      ReceiveHolds(c, l, l.backlog[..n]);
      ReceiveFrame(c, l, l.backlog[..n]);
      PumpHolds(c, Receive(c, l, l.backlog[..n]).(backlog := l.backlog[n..]));
    }
  }

  /** A frame the guest has not acknowledged is never overwritten by another. */
  lemma PendingIsSafe(c: Config, l: Link, op: Op)
    requires l.pending && !HandsOver(op)
    ensures Holds(l, Do(c, l, op))
  {
    hide Handed, Pump, Receive;
    match op
    case Bytes(data) => ReceiveHolds(c, l, data);
    case Requested(data) =>
      PumpHolds(c, l.(backlog := data));
      PumpHolds(c, l.(backlog := l.backlog + data));
    case Registers(buffer, frame) => PumpHolds(c, l.(buffer := buffer, frame := frame));
    case Poll => PumpHolds(c, l);
    case _ =>
  }

  // --------------------------------------------------------------- starvation

  /** Timers that have not yet come due. */
  ghost predicate Ahead(l: Link) {
    (l.gapTimer.Some? ==> l.now <= l.gapTimer.value) && (l.watchdog.Some? ==> l.now <= l.watchdog.value)
  }

  /** Time that stops at every armed timer. */
  predicate Punctual(l: Link, op: Op) {
    op.Elapse? ==> (l.gapTimer.Some? ==> op.t <= l.gapTimer.value) && (l.watchdog.Some? ==> op.t <= l.watchdog.value)
  }

  lemma ReceiveAhead(c: Config, l: Link, data: seq<Byte>)
    requires Ahead(l)
    ensures Ahead(Receive(c, l, data)) && Receive(c, l, data).now == l.now
  {
    hide Push, Ahead;
    if data != [] && l.frame != 0 && |l.rx| <= RX_MAX {
      var rx := l.rx + data[..Min(|data|, RX_MAX - |l.rx|)];
      AheadOnly(l, l.(rx := rx));
      AheadOnly(l, l.(rx := []));
      if |rx| >= l.frame {
        PushAhead(c, l.(rx := []), rx[..l.frame]);
      }
    }
  }

  lemma AheadOnly(l: Link, r: Link)
    requires Ahead(l) && r.now == l.now && r.gapTimer == l.gapTimer && r.watchdog == l.watchdog
    ensures Ahead(r)
  {
  }

  lemma ReleaseAhead(c: Config, l: Link)
    requires Ahead(l)
    ensures Ahead(Release(c, l)) && Release(c, l).now == l.now
  {
  }

  lemma PushAhead(c: Config, l: Link, f: Frame)
    requires Ahead(l)
    ensures Ahead(Push(c, l, f)) && Push(c, l, f).now == l.now
  {
    var m := MakeRoom(l.(arrived := l.arrived + [f]));
    ReleaseAhead(c, m.(queue := m.queue + [f]));
    hide Release;
  }

  lemma {:induction false} PumpAhead(c: Config, l: Link)
    requires Ahead(l)
    ensures Ahead(Pump(c, l))
    decreases |l.backlog|
  {
    if l.backlog != [] && Room(l) > 0 {
      var n := Min(|l.backlog|, Room(l));
      ReceiveAhead(c, l, l.backlog[..n]);
      ReceiveFrame(c, l, l.backlog[..n]);
      hide Receive;
      PumpAhead(c, Receive(c, l, l.backlog[..n]).(backlog := l.backlog[n..]));
    }
  }

  lemma DoAhead(c: Config, l: Link, op: Op)
    requires Ahead(l) && Punctual(l, op)
    ensures Ahead(Do(c, l, op))
  {
    hide Pump, Receive, Release;
    match op
    case Elapse(_) =>
    case GapFires => ReleaseAhead(c, l.(gapTimer := None));
    case WatchdogFires => ReleaseAhead(c, l.(watchdog := None, pending := false));
    case Bytes(data) => ReceiveAhead(c, l, data);
    case Requested(data) =>
      PumpAhead(c, l.(backlog := data));
      PumpAhead(c, l.(backlog := l.backlog + data));
    case Ack(bits) =>
      ReleaseAhead(c, l.(status := l.status - (set b | b in bits && b < 5), pending := false, watchdog := None));
    case Control(start) =>
      var a := l.(start := start);
      ReleaseAhead(c, a.(pending := false, watchdog := None));
      PumpAhead(c, if l.pending then Next(c, a) else a);
    case Registers(buffer, frame) => PumpAhead(c, l.(buffer := buffer, frame := frame));
    case Mirror(_) =>
    case Poll => PumpAhead(c, l);
  }

  ghost predicate AllPunctual(c: Config, ops: seq<Op>)
    decreases |ops|
  {
    ops == [] || (AllPunctual(c, ops[..|ops| - 1]) && Punctual(Play(c, ops[..|ops| - 1]), ops[|ops| - 1]))
  }

  lemma {:induction false} RunAhead(c: Config, ops: seq<Op>)
    requires AllPunctual(c, ops)
    ensures Ahead(Play(c, ops))
    decreases |ops|
  {
    hide Do, Punctual;
    if ops != [] {
      hide Ahead;
      RunAhead(c, ops[..|ops| - 1]);
      DoAhead(c, Play(c, ops[..|ops| - 1]), ops[|ops| - 1]);
    }
  }

  /** While frames wait, a hand-over is never more than the longer of the gap and the watchdog away. */
  lemma NoStarvation(c: Config, ops: seq<Op>)
    requires Allowed(c, ops) && AllPunctual(c, ops)
    ensures var l := Play(c, ops); l.queue != [] ==> l.now <= l.deliveredAt + Max(c.gap, WATCHDOG_NS)
  {
    RunKeeps(c, ops);
    RunAhead(c, ops);
  }

  /**
   The pace of hand-overs: nothing that has left comes back and nothing that arrived is
   forgotten, and the time of the last hand-over moves on only when a frame leaves.
   */
  ghost predicate Paced(l: Link, r: Link) {
    && |l.gone| <= |r.gone| && l.arrived <= r.arrived
    && (r.deliveredAt == l.deliveredAt || (r.deliveredAt == l.now && |l.gone| < |r.gone|))
  }

  lemma PacedOn(l: Link, m: Link, r: Link)
    requires Paced(l, m) && Paced(m, r) && m.now == l.now
    ensures Paced(l, r)
  {
  }

  lemma ReleasePaced(c: Config, l: Link)
    ensures Paced(l, Release(c, l)) && Release(c, l).now == l.now
  {
  }

  lemma PushPaced(c: Config, l: Link, f: Frame)
    ensures Paced(l, Push(c, l, f)) && Push(c, l, f).now == l.now
  {
  }

  lemma ReceivePaced(c: Config, l: Link, data: seq<Byte>)
    ensures Paced(l, Receive(c, l, data)) && Receive(c, l, data).now == l.now
  {
    hide Push;
    if data != [] && l.frame != 0 && |l.rx| <= RX_MAX {
      var rx := l.rx + data[..Min(|data|, RX_MAX - |l.rx|)];
      if |rx| >= l.frame {
        PushPaced(c, l.(rx := []), rx[..l.frame]);
      }
    }
  }

  lemma {:induction false} PumpPaced(c: Config, l: Link)
    ensures Paced(l, Pump(c, l)) && Pump(c, l).now == l.now
    decreases |l.backlog|
  {
    if l.backlog != [] && Room(l) > 0 {
      var n := Min(|l.backlog|, Room(l));
      ReceivePaced(c, l, l.backlog[..n]);
      ReceiveFrame(c, l, l.backlog[..n]);
      hide Receive;
      var r := Receive(c, l, l.backlog[..n]).(backlog := l.backlog[n..]);
      PumpPaced(c, r);
      PacedOn(l, r, Pump(c, r));
    }
  }

  lemma DoPaced(c: Config, l: Link, op: Op)
    ensures Paced(l, Do(c, l, op))
  {
    hide Pump, Receive, Release;
    match op
    case Elapse(_) =>
    case GapFires => ReleasePaced(c, l.(gapTimer := None));
    case WatchdogFires => ReleasePaced(c, l.(watchdog := None, pending := false));
    case Bytes(data) => ReceivePaced(c, l, data);
    case Requested(data) =>
      PumpPaced(c, l.(backlog := data));
      PumpPaced(c, l.(backlog := l.backlog + data));
    case Ack(bits) =>
      ReleasePaced(c, l.(status := l.status - (set b | b in bits && b < 5), pending := false, watchdog := None));
    case Control(start) =>
      var a := l.(start := start);
      ReleasePaced(c, a.(pending := false, watchdog := None));
      var x := if l.pending then Next(c, a) else a;
      PumpPaced(c, x);
      PacedOn(l, x, Pump(c, x));
    case Registers(buffer, frame) => PumpPaced(c, l.(buffer := buffer, frame := frame));
    case Mirror(_) =>
    case Poll => PumpPaced(c, l);
  }

  /** The most time between two hand-overs while frames wait. */
  function Pace(c: Config): nat { Max(c.gap, WATCHDOG_NS) }

  /** How late the last hand-over can be while the frame at position `k` of the queue of `l` still waits. */
  ghost predicate OnTime(c: Config, l: Link, r: Link, k: nat) {
    && |l.gone| <= |r.gone| && l.arrived <= r.arrived
    && (|r.gone| <= |l.gone| + k ==> r.deliveredAt <= l.now + (|r.gone| - |l.gone|) * Pace(c))
  }

  lemma OnTimeNext(c: Config, l: Link, p: Link, r: Link, k: nat)
    requires OnTime(c, l, p, k) && Paced(p, r)
    requires |p.gone| <= |l.gone| + k ==> p.now <= p.deliveredAt + Pace(c)
    ensures OnTime(c, l, r, k)
  {
    var i, j, m := |p.gone| - |l.gone|, |r.gone| - |l.gone|, Pace(c);
    hide Pace;
    if j <= k {
      if i < j {
        assert (j - i) * m >= m by { TimesAtLeast(j - i, m); }
        assert j * m == i * m + (j - i) * m;
      }
    }
  }

  lemma TimesAtLeast(d: nat, m: nat)
    requires d >= 1
    ensures d * m >= m
  {
  }

  /** A frame that arrived and has not left waits in the queue. */
  lemma StillWaits(c: Config, l: Link, r: Link, k: nat)
    requires Inv(c, l) && Inv(c, r) && k < |l.queue| && l.arrived <= r.arrived && |l.gone| <= |r.gone|
    ensures |r.gone| <= |l.gone| + k ==> r.queue != []
    ensures |r.gone| > |l.gone| + k ==> r.gone[|l.gone| + k].frame == l.queue[k]
  {
    hide Timed, Spaced, Handed;
    assert l.arrived[|l.gone| + k] == l.queue[k] == r.arrived[|l.gone| + k];
    assert |r.gone| > |l.gone| + k ==> Frames(r.gone)[|l.gone| + k] == r.arrived[|l.gone| + k];
  }

  lemma {:induction false} RunOnTime(c: Config, ops: seq<Op>, m: nat, k: nat)
    requires Allowed(c, ops) && AllPunctual(c, ops) && m <= |ops|
    requires Allowed(c, ops[..m]) && k < |Play(c, ops[..m]).queue|
    ensures OnTime(c, Play(c, ops[..m]), Play(c, ops), k)
    decreases |ops|
  {
    hide Do, Enabled, Punctual, OnTime, Inv;
    if m == |ops| {
      assert ops[..m] == ops;
      RunKeeps(c, ops);
      StartsOnTime(c, Play(c, ops), k);
    } else {
      var before, op := ops[..|ops| - 1], ops[|ops| - 1];
      assert before[..m] == ops[..m];
      var l, p := Play(c, ops[..m]), Play(c, before);
      RunOnTime(c, before, m, k);
      RunKeeps(c, ops[..m]);
      RunKeeps(c, before);
      NoStarvation(c, before);
      DoPaced(c, p, op);
      WaitsOn(c, l, p, k);
      hide Paced;
      OnTimeNext(c, l, p, Do(c, p, op), k);
    }
  }

  lemma StartsOnTime(c: Config, l: Link, k: nat)
    requires Inv(c, l)
    ensures OnTime(c, l, l, k)
  {
    hide Spaced, Kept, Pace;
  }

  lemma WaitsOn(c: Config, l: Link, p: Link, k: nat)
    requires Inv(c, l) && Inv(c, p) && k < |l.queue| && OnTime(c, l, p, k)
    requires p.queue != [] ==> p.now <= p.deliveredAt + Pace(c)
    ensures |p.gone| <= |l.gone| + k ==> p.now <= p.deliveredAt + Pace(c)
  {
    StillWaits(c, l, p, k);
    hide Inv, Pace;
  }

  lemma {:induction false} AllowedFirst(c: Config, ops: seq<Op>, m: nat)
    requires m <= |ops| && Allowed(c, ops)
    ensures Allowed(c, ops[..m])
    decreases |ops|
  {
    if m < |ops| {
      AllowedFirst(c, ops[..|ops| - 1], m);
      assert ops[..|ops| - 1][..m] == ops[..m];
    } else {
      assert ops[..m] == ops;
    }
  }

  /**
   With timers served on time, the frame at position `k` of the queue has left it, handed over or
   overtaken by 64 later ones, once (k + 1) times the longer of gap and watchdog has gone by.
   */
  lemma FrameLeaves(c: Config, ops: seq<Op>, m: nat, k: nat)
    requires Allowed(c, ops) && AllPunctual(c, ops) && m <= |ops| && k < |Play(c, ops[..m]).queue|
    ensures var l, r := Play(c, ops[..m]), Play(c, ops);
            r.now > l.now + (k + 1) * Max(c.gap, WATCHDOG_NS) ==>
              |r.gone| > |l.gone| + k && r.gone[|l.gone| + k].frame == l.queue[k]
  {
    var l, r := Play(c, ops[..m]), Play(c, ops);
    AllowedFirst(c, ops, m);
    RunOnTime(c, ops, m, k);
    RunKeeps(c, ops[..m]);
    RunKeeps(c, ops);
    NoStarvation(c, ops);
    hide Allowed, AllPunctual, Play, Inv;
    WaitsOn(c, l, r, k);
    LeavesInTime(c, l, r, k);
  }

  lemma LeavesInTime(c: Config, l: Link, r: Link, k: nat)
    requires Inv(c, l) && Inv(c, r) && k < |l.queue| && OnTime(c, l, r, k)
    requires |r.gone| <= |l.gone| + k ==> r.now <= r.deliveredAt + Pace(c)
    ensures r.now > l.now + (k + 1) * Max(c.gap, WATCHDOG_NS) ==>
              |r.gone| > |l.gone| + k && r.gone[|l.gone| + k].frame == l.queue[k]
  {
    StillWaits(c, l, r, k);
    var j, m := |r.gone| - |l.gone|, Pace(c);
    assert m == Max(c.gap, WATCHDOG_NS);
    hide Inv, Pace;
    if j <= k {
      assert (k - j) * m >= 0;
      assert (k + 1) * m == j * m + m + (k - j) * m;
    }
  }

  // ------------------------------------------------------------ byte by byte

  function Joined(frames: seq<Frame>): seq<Byte>
    decreases |frames|
  {
    if frames == [] then [] else Joined(frames[..|frames| - 1]) + frames[|frames| - 1]
  }

  /** Every byte taken in so far: whole frames, the frame under way, and the backlog. */
  function Stream(l: Link): seq<Byte> { Joined(l.arrived) + l.rx + l.backlog }

  lemma PushArrives(c: Config, l: Link, f: Frame)
    ensures var r := Push(c, l, f); r.arrived == l.arrived + [f] && r.rx == l.rx && r.backlog == l.backlog
  {
  }

  lemma ReceivePiece(c: Config, l: Link, data: seq<Byte>)
    requires data != [] && |data| <= Room(l) && l.frame <= RX_MAX
    ensures var r, rx := Receive(c, l, data), l.rx + data;
            if |rx| == l.frame then r.arrived == l.arrived + [rx] && r.rx == [] else r.arrived == l.arrived && r.rx == rx
  {
    var rx := l.rx + data;
    assert data[..|data|] == data;
    if |rx| == l.frame {
      assert rx[..l.frame] == rx;
      PushArrives(c, l.(rx := []), rx);
    }
    hide Push;
  }

  lemma JoinedGrows(frames: seq<Frame>, f: Frame)
    ensures Joined(frames + [f]) == Joined(frames) + f
  {
    assert (frames + [f])[..|frames|] == frames;
  }

  /** A piece no longer than the frame still needs is kept whole if the frame fits the buffer. */
  lemma PieceKept(c: Config, l: Link, data: seq<Byte>, rest: seq<Byte>)
    requires data != [] && |data| <= Room(l) && l.frame <= RX_MAX
    ensures var r := Receive(c, l, data); Joined(r.arrived) + r.rx + rest == Joined(l.arrived) + l.rx + (data + rest)
    ensures |Receive(c, l, data).rx| <= RX_MAX
  {
    ReceivePiece(c, l, data);
    JoinedGrows(l.arrived, l.rx + data);
    hide Receive, Joined;
    var all := Joined(l.arrived);
    assert all + (l.rx + data) + [] + rest == all + l.rx + (data + rest);
    assert all + (l.rx + data) + rest == all + l.rx + (data + rest);
  }

  lemma {:induction false} ShortFramesKept(c: Config, l: Link)
    requires l.frame <= RX_MAX
    ensures Stream(Pump(c, l)) == Stream(l)
    decreases |l.backlog|
  {
    if l.backlog != [] && Room(l) > 0 {
      var n := Min(|l.backlog|, Room(l));
      var data, rest := l.backlog[..n], l.backlog[n..];
      assert l.backlog == data + rest;
      PieceKept(c, l, data, rest);
      ReceiveFrame(c, l, data);
      hide Receive, Joined;
      ShortFramesKept(c, Receive(c, l, data).(backlog := rest));
    }
  }

  /** A frame longer than the buffer is never completed: what does not fit is thrown away. */
  lemma {:induction false} LongFramesStick(c: Config, l: Link)
    requires l.frame > RX_MAX && |l.rx| <= RX_MAX && l.start && l.buffer
    ensures Pump(c, l) == l.(rx := (l.rx + l.backlog)[..Min(|l.rx| + |l.backlog|, RX_MAX)], backlog := [])
    decreases |l.backlog|
  {
    if l.backlog == [] {
      assert (l.rx + l.backlog)[..|l.rx|] == l.rx;
    } else {
      var n := Min(|l.backlog|, Room(l));
      LongPiece(c, l, n);
      CutOnce(l.rx, l.backlog, n);
      hide Receive;
      LongFramesStick(c, Receive(c, l, l.backlog[..n]).(backlog := l.backlog[n..]));
    }
  }

  lemma LongPiece(c: Config, l: Link, n: nat)
    requires l.frame > RX_MAX && |l.rx| <= RX_MAX && 0 < n <= |l.backlog|
    ensures Receive(c, l, l.backlog[..n]) == l.(rx := l.rx + l.backlog[..n][..Min(n, RX_MAX - |l.rx|)])
  {
    hide Push;
  }

  /** Cutting off what does not fit piece by piece is cutting it off once. */
  lemma CutOnce(rx: seq<Byte>, backlog: seq<Byte>, n: nat)
    requires |rx| <= RX_MAX && n <= |backlog|
    ensures var r, rest := rx + backlog[..n][..Min(n, RX_MAX - |rx|)], backlog[n..];
            (r + rest)[..Min(|r| + |rest|, RX_MAX)] == (rx + backlog)[..Min(|rx| + |backlog|, RX_MAX)]
  {
    var r, rest := rx + backlog[..n][..Min(n, RX_MAX - |rx|)], backlog[n..];
    var one, two := (r + rest)[..Min(|r| + |rest|, RX_MAX)], (rx + backlog)[..Min(|rx| + |backlog|, RX_MAX)];
    assert |one| == |two|;
    forall i | 0 <= i < |one| ensures one[i] == two[i] {
      assert i >= |rx| ==> two[i] == backlog[i - |rx|];
    }
  }

  /** The pump keeps every byte exactly when the frame length fits the 512-byte buffer, or there is too little to overflow it. */
  lemma BytesKeptExactly(c: Config, l: Link)
    requires |l.rx| <= RX_MAX
    ensures Stream(Pump(c, l)) == Stream(l) <==>
            l.frame <= RX_MAX || !l.start || !l.buffer || |l.rx| + |l.backlog| <= RX_MAX
  {
    if l.frame <= RX_MAX {
      ShortFramesKept(c, l);
    } else if l.start && l.buffer {
      LongFramesStick(c, l);
      var all := l.rx + l.backlog;
      assert Stream(Pump(c, l)) == Joined(l.arrived) + all[..Min(|all|, RX_MAX)] + [];
      assert Stream(l) == Joined(l.arrived) + l.rx + l.backlog;
      hide *;
      CutKeeps(Joined(l.arrived), l.rx, l.backlog);
    } else {
      NoPump(c, l);
    }
  }

  lemma NoPump(c: Config, l: Link)
    requires !l.start || !l.buffer
    ensures Pump(c, l) == l
  {
  }

  /** Bytes cut off at the buffer's end are the same bytes exactly when they fit it. */
  lemma CutKeeps(arrived: seq<Byte>, rx: seq<Byte>, backlog: seq<Byte>)
    ensures var all := rx + backlog;
            arrived + all[..Min(|all|, RX_MAX)] + [] == arrived + rx + backlog <==> |all| <= RX_MAX
  {
    var all := rx + backlog;
    assert arrived + rx + backlog == arrived + all;
    if |all| <= RX_MAX {
      assert all[..Min(|all|, RX_MAX)] + [] == all;
    } else {
      assert |arrived + all[..RX_MAX] + []| < |arrived + all|;
    }
  }

  // ------------------------------------------------------ the link in place

  class Machine {
    const config: Config
    const slots: array<Frame>
    var head: nat
    var count: nat
    var now: int
    var start: bool
    var buffer: bool
    var frame: nat
    var rx: seq<Byte>
    var backlog: seq<Byte>
    var pending: bool
    var deliveredAt: int
    var status: set<nat>
    var watchdog: Option<int>
    var gapTimer: Option<int>
    var arrived: seq<Frame>
    var gone: seq<Exit>

    ghost predicate Valid()
      reads this
    {
      slots.Length == QUEUE_MAX && head < QUEUE_MAX && count <= QUEUE_MAX && |rx| <= RX_MAX
    }

    ghost function State(): Link
      reads this, slots
      requires Valid()
    {
      Link(now, start, buffer, frame, rx, backlog, Ring(slots[..], head, count), pending, deliveredAt, status,
           watchdog, gapTimer, arrived, gone)
    }

    constructor (config: Config)
      ensures Valid() && State() == Init() && fresh(slots) && this.config == config
    {
      this.config, slots := config, new Frame[QUEUE_MAX];
      head, count, now, start, buffer, frame := 0, 0, 0, false, false, 0;
      rx, backlog, pending, deliveredAt, status := [], [], false, 0, {};
      watchdog, gapTimer, arrived, gone := None, None, [], [];
    }

    method HandOver(f: Frame)
      requires Valid()
      modifies this
      ensures Valid() && State() == Deliver(config, old(State()), f)
    {
      hide Ring;
      ghost var l := State();
      status, pending, deliveredAt := status + config.rxStatus, true, now;
      watchdog, gone := Some(deliveredAt + WATCHDOG_NS), gone + [Exit(f, Some(now))];
      assert State() == Deliver(config, l, f);
    }

    /** Hand over the frame at the head of the ring, unless the gap is not up yet. */
    method Free()
      requires Valid()
      modifies this
      ensures Valid() && State() == Release(config, old(State()))
    {
      var due := deliveredAt + config.gap;
      if pending || count == 0 {
        return;
      }
      if now < due {
        if gapTimer.None? {
          gapTimer := Some(due);
        }
        return;
      }
      RingPop(slots[..], head, count);
      hide Ring;
      var slot := head;
      head := (slot + 1) % QUEUE_MAX;
      count := count - 1;
      HandOver(slots[slot]);
    }

    method HandNext()
      requires Valid()
      modifies this
      ensures Valid() && State() == Next(config, old(State()))
    {
      hide Ring;
      pending := false;
      watchdog := None;
      Free();
    }

    /** Queue a whole frame behind the others, the oldest giving way; or hand it straight over. */
    method TakeFrame(f: Frame)
      requires Valid()
      modifies this, slots
      ensures Valid() && State() == Push(config, old(State()), f)
    {
      arrived := arrived + [f];
      if pending || count != 0 || now < deliveredAt + config.gap {
        Store(f);
        Free();
      } else {
        assert Ring(slots[..], head, count) == [];
        hide Ring;
        HandOver(f);
      }
    }

    method Store(f: Frame)
      requires Valid()
      modifies this`head, this`count, this`gone, slots
      ensures Valid()
      ensures var m := MakeRoom(old(State())); State() == m.(queue := m.queue + [f])
    {
      hide Ring;
      ghost var l := State();
      if count == QUEUE_MAX {
        DropOldest();
      }
      assert State() == MakeRoom(l);
      Append(f);
    }

    method Append(f: Frame)
      requires Valid() && count < QUEUE_MAX
      modifies this`count, slots
      ensures Valid() && State() == old(State()).(queue := old(State()).queue + [f])
    {
      hide Ring;
      RingPush(slots[..], head, count, f);
      slots[(head + count) % QUEUE_MAX] := f;
      count := count + 1;
    }

    method DropOldest()
      requires Valid() && count == QUEUE_MAX
      modifies this`head, this`count, this`gone
      ensures Valid() && State() == MakeRoom(old(State())) && count == QUEUE_MAX - 1
    {
      RingPop(slots[..], head, count);
      hide Ring;
      gone := gone + [Exit(slots[head], None)];
      head := (head + 1) % QUEUE_MAX;
      count := count - 1;
    }

    /** Bytes from the wire. */
    method Take(data: seq<Byte>)
      requires Valid()
      modifies this, slots
      ensures Valid() && State() == Receive(config, old(State()), data)
    {
      hide Ring, Push;
      if |data| == 0 || frame == 0 {
        return;
      }
      var size := |data|;
      if |rx| + size > RX_MAX {
        size := RX_MAX - |rx|;
      }
      rx := rx + data[..size];
      if |rx| < frame {
        return;
      }
      var whole := rx[..frame];
      rx := [];
      TakeFrame(whole);
    }

    /** Feed the backlog to an armed receive, never more than the frame under way still needs. */
    method PumpBacklog()
      requires Valid()
      modifies this, slots
      ensures Valid() && State() == Pump(config, old(State()))
    {
      hide Ring, Receive;
      while backlog != []
        invariant Valid() && Pump(config, State()) == Pump(config, old(State()))
        decreases |backlog|
      {
        ghost var before := State();
        var room := if !start || frame == 0 || !buffer then 0 else frame - |rx|;
        if room <= 0 {
          return;
        }
        var n := if |backlog| > room then room else |backlog|;
        ReceiveFrame(config, before, backlog[..n]);
        Take(backlog[..n]);
        backlog := backlog[n..];
      }
    }

    /** The guest writes the status register back. */
    method Acknowledge(bits: set<nat>)
      requires Valid()
      modifies this
      ensures Valid() && State() == Do(config, old(State()), Ack(bits))
    {
      hide Ring, Next;
      status := status - set b | b in bits && b < 5;
      if pending && status * config.rxStatus == {} {
        HandNext();
      }
    }

    method GapTimer()
      requires Valid() && Enabled(State(), GapFires)
      modifies this
      ensures Valid() && State() == Do(config, old(State()), GapFires)
    {
      hide Ring, Release;
      gapTimer := None;
      Free();
    }

    method Watchdog()
      requires Valid() && Enabled(State(), WatchdogFires)
      modifies this
      ensures Valid() && State() == Do(config, old(State()), WatchdogFires)
    {
      hide Ring, Next;
      watchdog := None;
      if pending {
        HandNext();
      }
    }
  }
}
