/**
 The link FIFO as the guest sees it: the bytes it is given over a run, the lengths its frames
 are cut to, and the acknowledgment that ends a frame.
 */
module LinkStream {
  import opened Common
  import opened LinkFifo

  // ------------------------------------------------------------ byte by byte

  /** What `Requested(data)` leaves of the stream: a backlog it would overflow is dropped, and so is data too long for any. */
  function Taken(l: Link, data: seq<Byte>): seq<Byte> {
    if |l.backlog| + |data| <= BACKLOG_MAX then Stream(l) + data
    else if |data| <= BACKLOG_MAX then Joined(l.arrived) + l.rx + data
    else Joined(l.arrived) + l.rx
  }

  lemma RequestTakes(c: Config, l: Link, data: seq<Byte>)
    requires l.frame <= RX_MAX
    ensures Stream(Do(c, l, Requested(data))) == Taken(l, data)
  {
    var whole, anew := l.(backlog := l.backlog + data), l.(backlog := data);
    ShortFramesKept(c, whole);
    ShortFramesKept(c, anew);
    assert Stream(whole) == Stream(l) + data;
    assert Stream(l.(backlog := [])) == Joined(l.arrived) + l.rx;
    hide Pump, Stream, Joined;
  }

  /** Operations that bring no bytes of their own, and lengths the buffer holds. */
  predicate Quiet(op: Op) { !op.Bytes? && !op.Requested? && (op.Registers? || op.Mirror? ==> op.frame <= RX_MAX) }

  lemma ReleaseStream(c: Config, l: Link)
    ensures var r := Release(c, l);
            r.arrived == l.arrived && r.rx == l.rx && r.backlog == l.backlog && r.frame == l.frame && Stream(r) == Stream(l)
  {
    hide Joined;
  }

  lemma QuietKeeps(c: Config, l: Link, op: Op)
    requires l.frame <= RX_MAX && Quiet(op)
    ensures Stream(Do(c, l, op)) == Stream(l) && Do(c, l, op).frame <= RX_MAX
  {
    hide Pump, Release, Joined;
    match op
    case Elapse(_) =>
    case GapFires => ReleaseStream(c, l.(gapTimer := None));
    case WatchdogFires => NextStream(c, l.(watchdog := None));
    case Ack(bits) => NextStream(c, l.(status := l.status - set b | b in bits && b < 5));
    case Control(start) =>
      var a := l.(start := start);
      NextStream(c, a);
      Pumped(c, a);
      Pumped(c, Next(c, a));
    case Registers(buffer, frame) => Pumped(c, l.(buffer := buffer, frame := frame));
    case Mirror(_) =>
    case Poll => Pumped(c, l);
  }

  lemma NextStream(c: Config, l: Link)
    ensures Stream(Next(c, l)) == Stream(l) && Next(c, l).frame == l.frame
  {
    var a := l.(pending := false, watchdog := None);
    ReleaseStream(c, a);
    hide Release, Joined;
  }

  lemma Pumped(c: Config, l: Link)
    requires l.frame <= RX_MAX
    ensures Stream(Pump(c, l)) == Stream(l) && Pump(c, l).frame == l.frame
  {
    ShortFramesKept(c, l);
    PumpFrame(c, l);
    hide Pump, Stream;
  }

  lemma {:induction false} PumpFrame(c: Config, l: Link)
    ensures Pump(c, l).frame == l.frame
    decreases |l.backlog|
  {
    if l.backlog != [] && Room(l) > 0 {
      var n := Min(|l.backlog|, Room(l));
      ReceiveFrame(c, l, l.backlog[..n]);
      hide Receive;
      PumpFrame(c, Receive(c, l, l.backlog[..n]).(backlog := l.backlog[n..]));
    }
  }

  /** The bytes requested in a run. */
  function Asked(ops: seq<Op>): seq<Byte>
    decreases |ops|
  {
    if ops == [] then []
    else
      var op := ops[|ops| - 1];
      Asked(ops[..|ops| - 1]) + if op.Requested? then op.data else []
  }

  /** Every request of the run finds room for itself behind the backlog. */
  ghost predicate Fitting(c: Config, ops: seq<Op>)
    decreases |ops|
  {
    ops == [] ||
    (var front, op := ops[..|ops| - 1], ops[|ops| - 1];
     Fitting(c, front) && (Quiet(op) || (op.Requested? && |Play(c, front).backlog| + |op.data| <= BACKLOG_MAX)))
  }

  /** Over any run whose requests find room and whose frames fit the buffer, the stream is the bytes requested: none lost, none twice, in order. */
  lemma {:induction false} StreamIsAsked(c: Config, ops: seq<Op>)
    requires Fitting(c, ops)
    ensures Stream(Play(c, ops)) == Asked(ops) && Play(c, ops).frame <= RX_MAX
    decreases |ops|
  {
    if ops == [] {
      assert Stream(Init()) == [];
    } else {
      var front, op := ops[..|ops| - 1], ops[|ops| - 1];
      StreamIsAsked(c, front);
      var l := Play(c, front);
      hide Do, Stream, Quiet, Joined;
      if op.Requested? {
        RequestTakes(c, l, op.data);
        RequestFrame(c, l, op.data);
      } else {
        QuietIs(op);
        QuietKeeps(c, l, op);
      }
    }
  }

  lemma QuietIs(op: Op)
    requires Quiet(op)
    ensures !op.Requested?
  {
  }

  lemma RequestFrame(c: Config, l: Link, data: seq<Byte>)
    ensures Do(c, l, Requested(data)).frame == l.frame
  {
    PumpFrame(c, l.(backlog := data));
    PumpFrame(c, l.(backlog := l.backlog + data));
    hide Pump;
  }

  // ------------------------------------------------------------ frame lengths

  /** The length last set in a run, by the register write or its mirror. */
  function LastLength(ops: seq<Op>): nat
    decreases |ops|
  {
    if ops == [] then 0
    else
      var op := ops[|ops| - 1];
      if op.Registers? || op.Mirror? then op.frame else LastLength(ops[..|ops| - 1])
  }

  /** Frames completed by an operation are of its length. */
  ghost predicate Cuts(l: Link, r: Link) {
    && |r.arrived| >= |l.arrived| && r.arrived[..|l.arrived|] == l.arrived && r.frame == l.frame
    && forall i | |l.arrived| <= i < |r.arrived| :: |r.arrived[i]| == l.frame
  }

  lemma CutsTwice(l: Link, m: Link, r: Link)
    requires Cuts(l, m) && Cuts(m, r)
    ensures Cuts(l, r)
  {
    assert forall i | 0 <= i < |m.arrived| :: r.arrived[i] == r.arrived[..|m.arrived|][i] == m.arrived[i];
    assert r.arrived[..|l.arrived|] == m.arrived[..|l.arrived|];
  }

  lemma NoCut(l: Link, r: Link)
    requires r.arrived == l.arrived && r.frame == l.frame
    ensures Cuts(l, r)
  {
  }

  lemma ReceiveCuts(c: Config, l: Link, data: seq<Byte>)
    ensures Cuts(l, Receive(c, l, data))
  {
    ReceiveFrame(c, l, data);
    if data != [] && l.frame != 0 && |l.rx| <= RX_MAX {
      var rx := l.rx + data[..Min(|data|, RX_MAX - |l.rx|)];
      if |rx| >= l.frame {
        PushArrives(c, l.(rx := []), rx[..l.frame]);
      }
    }
    hide Push;
  }

  lemma {:induction false} PumpCuts(c: Config, l: Link)
    ensures Cuts(l, Pump(c, l))
    decreases |l.backlog|
  {
    if l.backlog != [] && Room(l) > 0 {
      var n := Min(|l.backlog|, Room(l));
      ReceiveFrame(c, l, l.backlog[..n]);
      ReceiveCuts(c, l, l.backlog[..n]);
      var m := Receive(c, l, l.backlog[..n]).(backlog := l.backlog[n..]);
      assert Cuts(l, m);
      PumpCuts(c, m);
      assert Pump(c, l) == Pump(c, m);
      hide *;
      CutsTwice(l, m, Pump(c, m));
    } else {
      NoCut(l, l);
      hide Cuts;
    }
  }

  /** The link an operation works on, its length set. */
  function Set(l: Link, op: Op): Link {
    if op.Registers? || op.Mirror? then l.(frame := op.frame) else l
  }

  lemma DoCuts(c: Config, l: Link, op: Op)
    ensures Cuts(Set(l, op), Do(c, l, op))
  {
    var r := Do(c, l, op);
    hide Pump, Release, Cuts, Receive;
    match op
    case Elapse(_) => NoCut(l, r);
    case GapFires =>
      ReleaseStream(c, l.(gapTimer := None));
      NoCut(l, r);
    case WatchdogFires =>
      NextCuts(c, l.(watchdog := None));
      NoCut(l, r);
    case Bytes(data) => ReceiveCuts(c, l, data);
    case Requested(data) => RequestCuts(c, l, data);
    case Ack(bits) =>
      NextCuts(c, l.(status := l.status - set b | b in bits && b < 5));
      NoCut(l, r);
    case Control(start) =>
      var a := l.(start := start);
      NextCuts(c, a);
      var m := if l.pending then Next(c, a) else a;
      NoCut(l, m);
      PumpCuts(c, m);
      CutsTwice(l, m, Pump(c, m));
      NoCut(l, a);
    case Registers(buffer, frame) =>
      var a := l.(buffer := buffer, frame := frame);
      NoCut(Set(l, op), a);
      PumpCuts(c, a);
      CutsTwice(Set(l, op), a, r);
    case Mirror(_) => NoCut(Set(l, op), r);
    case Poll => PumpCuts(c, l);
  }

  lemma NextCuts(c: Config, l: Link)
    ensures var r := Next(c, l); r.arrived == l.arrived && r.frame == l.frame
  {
    ReleaseStream(c, l.(pending := false, watchdog := None));
    hide Release;
  }

  lemma RequestCuts(c: Config, l: Link, data: seq<Byte>)
    ensures Cuts(l, Do(c, l, Requested(data)))
  {
    var whole, anew := l.(backlog := l.backlog + data), l.(backlog := data);
    NoCut(l, whole);
    NoCut(l, anew);
    NoCut(l, l.(backlog := []));
    PumpCuts(c, whole);
    PumpCuts(c, anew);
    hide Pump, Cuts;
    CutsTwice(l, whole, Pump(c, whole));
    CutsTwice(l, anew, Pump(c, anew));
  }

  /** Over any run: the length in force is the last one set, and the frames an operation completes are of the length in force after it. */
  lemma {:induction false} LengthsInForce(c: Config, ops: seq<Op>)
    ensures Play(c, ops).frame == LastLength(ops)
    ensures ops != [] ==>
              var l, r := Play(c, ops[..|ops| - 1]), Play(c, ops);
              && |l.arrived| <= |r.arrived| && r.arrived[..|l.arrived|] == l.arrived
              && forall i | |l.arrived| <= i < |r.arrived| :: |r.arrived[i]| == LastLength(ops)
    decreases |ops|
  {
    if ops != [] {
      LengthsInForce(c, ops[..|ops| - 1]);
      DoCuts(c, Play(c, ops[..|ops| - 1]), ops[|ops| - 1]);
      hide Do;
    }
  }

  // ------------------------------------------------------------ acknowledgment

  function Handovers(l: Link): nat { |Handed(l.gone)| }

  /** Nothing handed over and nothing forgotten; or a frame handed over, its status bits up. */
  ghost predicate Hands(c: Config, l: Link, r: Link) {
    if Handovers(r) == Handovers(l) then r.pending == l.pending && r.status == l.status
    else Handovers(r) > Handovers(l) && r.pending && r.status == l.status + c.rxStatus
  }

  lemma HandsTwice(c: Config, l: Link, m: Link, r: Link)
    requires Hands(c, l, m) && Hands(c, m, r)
    ensures Hands(c, l, r)
  {
    hide Handovers;
  }

  lemma HandedOn(gone: seq<Exit>, e: Exit)
    ensures |Handed(gone + [e])| == |Handed(gone)| + if e.at.Some? then 1 else 0
  {
    assert (gone + [e])[..|gone|] == gone;
  }

  lemma ReleaseHands(c: Config, l: Link)
    ensures Hands(c, l, Release(c, l))
  {
    if l.queue != [] {
      HandedOn(l.gone, Exit(l.queue[0], Some(l.now)));
    }
    hide Handed;
  }

  lemma PushHands(c: Config, l: Link, f: Frame)
    ensures Hands(c, l, Push(c, l, f))
  {
    var a := l.(arrived := l.arrived + [f]);
    HandedOn(l.gone, Exit(f, Some(l.now)));
    if l.queue != [] {
      HandedOn(l.gone, Exit(l.queue[0], None));
    }
    var m := MakeRoom(a);
    var q := m.(queue := m.queue + [f]);
    assert Hands(c, l, q) by { hide Handed, Release; }
    ReleaseHands(c, q);
    hide Handed, Release, Hands, MakeRoom, Handovers;
    HandsTwice(c, l, q, Release(c, q));
    DeliverHands(c, l, f);
  }

  lemma DeliverHands(c: Config, l: Link, f: Frame)
    ensures Hands(c, l, Deliver(c, l.(arrived := l.arrived + [f]), f))
  {
    HandedOn(l.gone, Exit(f, Some(l.now)));
    hide Handed;
  }

  lemma ReceiveHands(c: Config, l: Link, data: seq<Byte>)
    ensures Hands(c, l, Receive(c, l, data))
  {
    if data != [] && l.frame != 0 && |l.rx| <= RX_MAX {
      var rx := l.rx + data[..Min(|data|, RX_MAX - |l.rx|)];
      if |rx| >= l.frame {
        PushHands(c, l.(rx := []), rx[..l.frame]);
      }
    }
    hide Push, Handed;
  }

  lemma {:induction false} PumpHands(c: Config, l: Link)
    ensures Hands(c, l, Pump(c, l))
    decreases |l.backlog|
  {
    if l.backlog != [] && Room(l) > 0 {
      var n := Min(|l.backlog|, Room(l));
      ReceiveFrame(c, l, l.backlog[..n]);
      ReceiveHands(c, l, l.backlog[..n]);
      var m := Receive(c, l, l.backlog[..n]).(backlog := l.backlog[n..]);
      assert Hands(c, l, m) by { hide Receive, Handed; }
      PumpHands(c, m);
      assert Pump(c, l) == Pump(c, m);
      hide *;
      HandsTwice(c, l, m, Pump(c, m));
    }
  }

  /** The status bits of the frame handed over last that have not been acknowledged since. */
  ghost function Unacked(c: Config, ops: seq<Op>): set<nat>
    decreases |ops|
  {
    if ops == [] then {}
    else
      var front, op := ops[..|ops| - 1], ops[|ops| - 1];
      if Handovers(Play(c, ops)) > Handovers(Play(c, front)) then c.rxStatus
      else if op.Ack? then Unacked(c, front) - set b | b in op.bits && b < 5
      else Unacked(c, front)
  }

  /** What an operation does to a frame in hand. */
  ghost predicate Acts(c: Config, l: Link, op: Op, r: Link) {
    var left := if op.Ack? then l.status - set b | b in op.bits && b < 5 else l.status;
    if Handovers(r) > Handovers(l) then r.pending && r.status == left + c.rxStatus
    else Handovers(r) == Handovers(l) && r.status == left
         && (r.pending <==> l.pending && !(op.Ack? && left * c.rxStatus == {}) && !op.WatchdogFires? && !(op.Control? && op.start && !l.start))
  }

  lemma {:induction false} DoActs(c: Config, l: Link, op: Op)
    ensures Acts(c, l, op, Do(c, l, op))
  {
    hide Pump, Release, Receive, Handed;
    match op
    case Elapse(_) =>
    case GapFires => ReleaseHands(c, l.(gapTimer := None));
    case WatchdogFires => ReleaseHands(c, l.(watchdog := None, pending := false));
    case Bytes(data) => ReceiveHands(c, l, data);
    case Requested(data) => RequestHands(c, l, data);
    case Ack(bits) => ReleaseHands(c, l.(status := l.status - (set b | b in bits && b < 5), pending := false, watchdog := None));
    case Control(start) => ControlHands(c, l, start);
    case Registers(buffer, frame) => PumpHands(c, l.(buffer := buffer, frame := frame));
    case Mirror(_) =>
    case Poll => PumpHands(c, l);
  }

  lemma RequestHands(c: Config, l: Link, data: seq<Byte>)
    ensures Hands(c, l, Do(c, l, Requested(data)))
  {
    PumpHands(c, l.(backlog := l.backlog + data));
    PumpHands(c, l.(backlog := data));
    hide Pump, Handed;
  }

  lemma ControlHands(c: Config, l: Link, start: bool)
    ensures Acts(c, l, Control(start), Do(c, l, Control(start)))
  {
    var a := l.(start := start);
    var n := a.(pending := false, watchdog := None);
    ReleaseHands(c, n);
    PumpHands(c, a);
    PumpHands(c, Release(c, n));
    hide Pump, Release, Handed;
  }

  /**
   The acknowledgment, over any run: the status register shows of the frame's bits those not
   acknowledged since it was handed over, and an acknowledgment ends the frame exactly when it
   clears the last of them.
   */
  lemma {:induction false} StatusTells(c: Config, ops: seq<Op>)
    ensures Play(c, ops).status * c.rxStatus == Unacked(c, ops)
    decreases |ops|
  {
    if ops != [] {
      StatusTells(c, ops[..|ops| - 1]);
      DoActs(c, Play(c, ops[..|ops| - 1]), ops[|ops| - 1]);
      hide Do, Handovers;
    }
  }

  lemma AckEnds(c: Config, ops: seq<Op>, bits: set<nat>)
    requires Play(c, ops).pending
    ensures var l, r := Play(c, ops), Do(c, Play(c, ops), Ack(bits));
            if Unacked(c, ops) <= (set b | b in bits && b < 5) then !r.pending || Handovers(r) > Handovers(l)
            else r.pending && Handovers(r) == Handovers(l)
  {
    var l := Play(c, ops);
    StatusTells(c, ops);
    DoActs(c, l, Ack(bits));
    var low := set b | b in bits && b < 5;
    assert (l.status - low) * c.rxStatus == l.status * c.rxStatus - low;
    if !(Unacked(c, ops) <= low) {
      var b :| b in Unacked(c, ops) && b !in low;
      assert b in (l.status - low) * c.rxStatus;
      NotPassed(c, l, bits);
    }
    hide Do, Handovers, Play, Unacked;
  }

  lemma NotPassed(c: Config, l: Link, bits: set<nat>)
    requires l.pending && (l.status - set b | b in bits && b < 5) * c.rxStatus != {}
    ensures Do(c, l, Ack(bits)) == l.(status := l.status - set b | b in bits && b < 5)
  {
  }

  // ------------------------------------------------------------ the pump runs dry

  lemma {:induction false} PumpRuns(c: Config, l: Link)
    ensures var r := Pump(c, l); (r.backlog == [] || Room(r) <= 0) && r.start == l.start && r.buffer == l.buffer && r.frame == l.frame
    decreases |l.backlog|
  {
    if l.backlog != [] && Room(l) > 0 {
      var n := Min(|l.backlog|, Room(l));
      ReceiveFrame(c, l, l.backlog[..n]);
      hide Receive;
      PumpRuns(c, Receive(c, l, l.backlog[..n]).(backlog := l.backlog[n..]));
    }
  }

  /** A poll, a request, a length set, or a transfer newly started leaves no byte waiting that the frame under way has room for. */
  lemma PumpsDry(c: Config, l: Link, op: Op)
    requires op.Poll? || op.Requested? || op.Registers? || (op.Control? && op.start && !l.start)
    ensures var r := Do(c, l, op);
            r.backlog == [] || !r.start || !r.buffer || r.frame == 0 || |r.rx| >= r.frame
  {
    match op
    case Poll => PumpRuns(c, l);
    case Requested(data) =>
      PumpRuns(c, l.(backlog := data));
      PumpRuns(c, l.(backlog := l.backlog + data));
    case Registers(buffer, frame) => PumpRuns(c, l.(buffer := buffer, frame := frame));
    case Control(start) =>
      PumpRuns(c, l.(start := start));
      PumpRuns(c, Next(c, l.(start := start)));
    hide Pump, Next;
  }
}
