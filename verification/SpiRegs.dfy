/**
 The SPI registers the guest watches beside a transfer: what comes in while words go out, the
 transmit flag, and what a write may do meanwhile.
 */
module SpiRegs {
  import opened Common
  import opened Spi

  const ONES: nat := 0xffff

  /** The words that have come in and not been read: the receive register, then the buffer behind it. */
  function Unread(r: Regs): seq<nat> {
    (if r.receiveEmpty then [] else [r.receiveData]) + (if r.bufferFull then [r.bufferData] else [])
  }

  predicate Proper(r: Regs) { r.bufferFull ==> !r.receiveEmpty }

  /** `k` words of ones came in: two can wait, the rest are lost and told of as an overrun. */
  ghost predicate Arrived(r: Regs, t: Regs, k: nat) {
    var all := Unread(r) + seq(k, _ => ONES);
    && Proper(t) && Unread(t) == all[..Min(2, |all|)]
    && (RX_FLAG in t.flags <==> RX_FLAG in r.flags || |Unread(r)| == 0 < k)
    && (OVERRUN_FLAG in t.flags <==> OVERRUN_FLAG in r.flags || |all| > 2)
    && (RX_OVERRUN_STATUS in t.receiveStatus <==> RX_OVERRUN_STATUS in r.receiveStatus || |all| > 2)
  }

  /** The receive side of two register files is one. */
  predicate SameIn(r: Regs, t: Regs) {
    && t.receiveEmpty == r.receiveEmpty && t.bufferFull == r.bufferFull && t.receiveData == r.receiveData && t.bufferData == r.bufferData
    && t.receiveStatus == r.receiveStatus && (RX_FLAG in t.flags <==> RX_FLAG in r.flags)
    && (OVERRUN_FLAG in t.flags <==> OVERRUN_FLAG in r.flags)
  }

  lemma NoneArrived(r: Regs, t: Regs)
    requires Proper(r) && SameIn(r, t)
    ensures Arrived(r, t, 0)
  {
    var none: seq<nat> := seq(0, _ => ONES);
    assert none == [] && Unread(t) == Unread(r) && Unread(r) + none == Unread(r);
  }

  lemma OneArrived(r: Regs, t: Regs)
    requires Proper(r) && SameIn(Receive(r), t)
    ensures Arrived(r, t, 1)
  {
    var one: seq<nat> := seq(1, _ => ONES);
    assert one == [ONES];
  }

  lemma ArrivedOn(r: Regs, s: Regs, t: Regs, j: nat, k: nat)
    requires Arrived(r, s, j) && Arrived(s, t, k)
    ensures Arrived(r, t, j + k)
  {
    var a: seq<nat>, b: seq<nat> := seq(j, _ => ONES), seq(k, _ => ONES);
    var c: seq<nat> := seq(j + k, _ => ONES);
    assert c == a + b;
    var all, rest := Unread(r) + a, Unread(s) + b;
    assert Unread(r) + c == all + b;
    assert |all| <= 2 ==> all[..|all|] == all && rest == Unread(r) + c;
  }

  /** When the words on their way out will have been shifted, and as many words of ones shifted in. */
  function ShiftDues(t: Transfer): (r: seq<int>) {
    (if t.phase == C2T || t.phase == Shift then [ToLatch(t) - 31] else []) + (if t.queued then [ToFree(t) + 8 + 775] else [])
  }

  /** What the end of a phase does to the receive side. */
  lemma PhaseArrives(b: Board)
    requires Good(b) && b.transfer.phase != Idle && Proper(b.regs)
    ensures |b.dac.program| == 5
    ensures var r, t := EndPhase(b), b.transfer;
            && Arrived(b.regs, r.regs, if t.phase == Shift then 1 else 0)
            && ShiftDues(r.transfer) == Minus(if t.phase == Shift then ShiftDues(t)[1..] else ShiftDues(t), t.left)
            && (t.phase == Shift ==> ShiftDues(t) != [] && ShiftDues(t)[0] == t.left)
            && (t.phase != Shift && ShiftDues(t) != [] ==> ShiftDues(t)[0] > t.left)
  {
    assert |b.dac.program| == 5;
    PhaseReceives(b);
    PhaseDues(b);
    hide *;
    if b.transfer.phase == Shift {
      OneArrived(b.regs, EndPhase(b).regs);
    } else {
      NoneArrived(b.regs, EndPhase(b).regs);
    }
  }

  lemma PhaseReceives(b: Board)
    requires Good(b) && b.transfer.phase != Idle && |b.dac.program| == 5
    ensures SameIn(if b.transfer.phase == Shift then Receive(b.regs) else b.regs, EndPhase(b).regs)
  {
    hide Latch, Good, WordValid, Receive, ShiftTicks, T2cTicks, C2tTicks;
  }

  lemma PhaseDues(b: Board)
    requires Good(b) && b.transfer.phase != Idle && |b.dac.program| == 5
    ensures var r, t := EndPhase(b), b.transfer;
            && ShiftDues(r.transfer) == Minus(if t.phase == Shift then ShiftDues(t)[1..] else ShiftDues(t), t.left)
            && (t.phase == Shift ==> ShiftDues(t) != [] && ShiftDues(t)[0] == t.left)
            && (t.phase != Shift && ShiftDues(t) != [] ==> ShiftDues(t)[0] > t.left)
  {
    StrictTimes();
    hide Latch, Receive, WordValid, C2tTicks, ShiftTicks, T2cTicks, DacValid;
  }

  /** However much time passes, a word of ones has come in for every word shifted out by then. */
  lemma {:induction false} FlowReceives(b: Board, n: nat)
    requires Good(b) && Proper(b.regs)
    ensures Arrived(b.regs, Flow(b, n).regs, Ripe(ShiftDues(b.transfer), n))
    decreases n
  {
    hide *;
    if n == 0 || b.transfer.phase == Idle || n < b.transfer.left {
      NoneYet(b, n);
      NoneArrived(b.regs, Flow(b, n).regs);
    } else {
      FlowOnce(b, n);
      PhaseArrives(b);
      StaysProper(b.regs, EndPhase(b).regs, if b.transfer.phase == Shift then 1 else 0);
      FlowReceives(EndPhase(b), n - b.transfer.left);
      RipeOnward(b.transfer, EndPhase(b).transfer, n);
      ArrivedOn(b.regs, EndPhase(b).regs, Flow(b, n).regs, if b.transfer.phase == Shift then 1 else 0,
                Ripe(ShiftDues(EndPhase(b).transfer), n - b.transfer.left));
    }
  }

  lemma StaysProper(r: Regs, t: Regs, k: nat)
    requires Arrived(r, t, k)
    ensures Proper(t)
  {
  }

  lemma NoneYet(b: Board, n: nat)
    requires Good(b) && (n == 0 || b.transfer.phase == Idle || n < b.transfer.left)
    ensures Flow(b, n).regs == b.regs && SameIn(b.regs, Flow(b, n).regs) && Ripe(ShiftDues(b.transfer), n) == 0
  {
    hide WordValid, DacValid, EndPhase;
  }

  lemma RipeOnward(t: Transfer, u: Transfer, n: nat)
    requires n >= t.left
    requires ShiftDues(u) == Minus(if t.phase == Shift then ShiftDues(t)[1..] else ShiftDues(t), t.left)
    requires t.phase == Shift ==> ShiftDues(t) != [] && ShiftDues(t)[0] == t.left
    ensures Ripe(ShiftDues(t), n) == (if t.phase == Shift then 1 else 0) + Ripe(ShiftDues(u), n - t.left)
  {
    RipeMinus(if t.phase == Shift then ShiftDues(t)[1..] else ShiftDues(t), t.left, n);
    hide ShiftDues;
  }

  // ---------------------------------------------------------- the transmit flag

  /** The transmit flag is up exactly while the guest may write another word without one waiting. */
  predicate Told(b: Board) { TX_FLAG in b.regs.flags <==> !b.transfer.txFull }

  lemma PhaseTold(b: Board)
    requires Good(b) && b.transfer.phase != Idle && Told(b) && |b.dac.program| == 5
    ensures Told(EndPhase(b))
  {
    hide Latch, WordValid, ShiftTicks, T2cTicks, C2tTicks, DacValid, StrictWord;
  }

  lemma {:induction false} FlowTold(b: Board, n: nat)
    requires Good(b) && Told(b)
    ensures Told(Flow(b, n))
    decreases n
  {
    if n != 0 && b.transfer.phase != Idle && n >= b.transfer.left {
      hide *;
      FlowOnce(b, n);
      PhaseTold(b);
      FlowTold(EndPhase(b), n - b.transfer.left);
    } else {
      hide Good, EndPhase;
    }
  }

  /** An operation that leaves the flag to the transfer: no stop, and no other write or sensing that changes it. */
  predicate Leaves(b: Board, op: Op) {
    match op
    case Tick(_) => true
    case Sense(regs) => TX_FLAG in regs.flags <==> TX_FLAG in b.regs.flags
    case Store(_, _, plain) => !Stops(op) && (plain.Some? ==> (TX_FLAG in plain.value.flags <==> TX_FLAG in b.regs.flags))
  }

  ghost predicate AllLeave(b: Board, ops: seq<Op>)
    decreases |ops|
  {
    ops == [] || (AllLeave(b, ops[..|ops| - 1]) && Leaves(Play(b, ops[..|ops| - 1]), ops[|ops| - 1]))
  }

  lemma DoTold(b: Board, op: Op)
    requires Good(b) && Told(b) && Leaves(b, op)
    ensures Told(Do(b, op))
  {
    if op.Tick? {
      FlowTold(b, op.n);
    } else if op.Store? {
      StoreTold(b, op.offset, op.word, op.plain);
    }
    hide Flow, Good, Write;
  }

  lemma StoreTold(b: Board, offset: nat, word: nat, plain: Option<Regs>)
    requires Good(b) && Told(b) && Leaves(b, Store(offset, word, plain))
    ensures Told(Write(b, offset, word, plain, true).board)
  {
    hide DacValid, WordValid, StrictWord, StrictConfiguration, C2tTicks, ShiftTicks;
  }

  /** Over any run that leaves it alone, the flag tells whether a word waits. */
  lemma {:induction false} RunTold(b: Board, ops: seq<Op>)
    requires Good(b) && Told(b) && AllLeave(b, ops)
    ensures Told(Play(b, ops))
    decreases |ops|
  {
    if ops != [] {
      RunTold(b, ops[..|ops| - 1]);
      PlayGood(b, ops[..|ops| - 1]);
      hide Good, Do, Leaves, Told;
      DoTold(Play(b, ops[..|ops| - 1]), ops[|ops| - 1]);
    }
  }

  lemma {:induction false} PlayGood(b: Board, ops: seq<Op>)
    requires Good(b)
    ensures Good(Play(b, ops))
    decreases |ops|
  {
    if ops != [] {
      PlayGood(b, ops[..|ops| - 1]);
      var s, op := Play(b, ops[..|ops| - 1]), ops[|ops| - 1];
      if op.Store? {
        WriteKeepsGood(s, op.offset, op.word, op.plain, true);
      }
      hide Good, Write, Flow;
    }
  }

  // ----------------------------------------------------------------- the guards

  /** While a transfer is under way a write that is accepted is a flag, a word, or a stop. */
  lemma ActiveIsGuarded(b: Board, offset: nat, word: nat, plain: Option<Regs>, commit: bool)
    requires Active(b.transfer) && Write(b, offset, word, plain, commit).ok
    ensures offset == 0x10 || offset == 0x3c || Stops(Store(offset, word, plain))
  {
    hide TransferValid, Accepts, Accept;
  }

  /** The one configuration in which a word is taken: 16 bits, half the period high, SPI enabled as master, no interrupts. */
  ghost predicate Configured(r: Regs) {
    && r.gcr1 == {0, 1, 24} && r.pinFunction == {0, 9, 10, 11} && r.interruptEnable == {} && r.interruptLevel == {}
    && r.chipSelectDefault == 0xff && r.format0 == 0x21810 && r.delay == 0x02020408
  }

  /** A word is taken by an enabled SPI exactly if it is one of the converter's, no other waits, and the set-up is the one known. */
  lemma WordTakenWhen(b: Board, word: nat, plain: Option<Regs>, commit: bool)
    requires Good(b) && 24 in b.regs.gcr1
    ensures Write(b, 0x3c, word, plain, commit).ok <==>
              Configured(b.regs) && word < 0x10000 && word / 0x200 % 8 in {0, 1, 2, 3, 6}
              && !b.transfer.queued && !b.transfer.previousCshold
  {
    hide TransferValid, DacValid, Accept;
  }

  /**
   An accepted write to any other register leaves the registers as the plain writer would; a stop
   discards the transfer, anything else leaves it.
   */
  lemma OthersStored(b: Board, offset: nat, word: nat, plain: Option<Regs>)
    requires offset != 0x3c && Write(b, offset, word, plain, true).ok
    ensures var r := Write(b, offset, word, plain, true).board;
            && plain == Some(r.regs) && r.dac == b.dac
            && r.transfer == if Stops(Store(offset, word, plain)) then NO_TRANSFER else b.transfer
  {
    hide TransferValid;
  }
}
