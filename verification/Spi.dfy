/**
 The timed path from SPI1 to the WM8740 converter: a word shifts through four phases counted
 in half module-clock periods, one more may wait behind it, and chip select going inactive
 latches it (SPRUH91D chapter 27).  Register words whose bits are used one by one are sets of
 bit numbers.
 */
module Spi {
  import opened Common

  const WORD: nat := 0x1_0000_0000
  const STRICT_FORMAT: nat := 0x00021810
  const STRICT_DELAY: nat := 0x02020408
  const STRICT_PINS: set<nat> := {0, 9, 10, 11}
  const STRICT_GCR1: set<nat> := {0, 1, 24}
  const ENABLE: nat := 24
  const TX_FLAG: nat := 9
  const RX_FLAG: nat := 8
  const OVERRUN_FLAG: nat := 6
  const RX_OVERRUN_STATUS: nat := 30

  datatype Phase = Idle | C2T | Shift | T2C | Gap

  /** The registers of SPI1 that the timed path uses. */
  datatype Regs = Regs(
    gcr1: set<nat>, pinFunction: set<nat>, interruptEnable: set<nat>, interruptLevel: set<nat>,
    chipSelectDefault: nat, format0: nat, delay: nat, dat1: nat, flags: set<nat>,
    receiveData: nat, receiveStatus: set<nat>, receiveEmpty: bool, bufferFull: bool, bufferData: nat)

  datatype Dac = Dac(program: seq<nat>, lastWord: nat, transfers: nat, attenuation: (nat, nat), unlocked: bool)

  datatype Transfer = Transfer(
    phase: Phase, left: nat,
    control: nat, format: nat, delay: nat,
    queuedControl: nat, queuedFormat: nat, queuedDelay: nat,
    queued: bool, txFull: bool, previousCshold: bool, fault: bool)

  datatype Board = Board(regs: Regs, dac: Dac, transfer: Transfer)

  // ---------------------------------------------------------------- converter

  predicate DacValid(d: Dac) {
    && |d.program| == 5 && d.program[0] < 0x200 && d.program[1] < 0x200 && d.program[2] < 0x200
    && d.program[3] < 0x200 && d.program[3] / 32 % 2 == 0
    && d.program[4] < 0x80 && d.program[4] % 16 == 0
  }

  /** A bare 16-bit word for one of program registers 0 to 3, or 6. */
  predicate WordValid(word: nat) {
    word < 0x10000 && (word / 512 % 8 <= 3 || word / 512 % 8 == 6)
  }

  /** What the converter does with a word latched into it. */
  function Latch(d: Dac, word: nat): (r: Dac)
    requires |d.program| == 5
  {
    var address, data := word / 512 % 8, word % 512;
    var e := d.(lastWord := word, transfers := d.transfers + 1);
    if address <= 1 then
      var p := e.program[address := data];
      e.(program := p, attenuation := if data >= 0x100 then (p[0] % 0x100, p[1] % 0x100) else e.attenuation)
    else if address == 2 then
      e.(program := e.program[2 := data], unlocked := e.unlocked || data >= 0x1e0)
    else if address == 3 then e.(program := e.program[3 := data - data / 32 % 2 * 32])
    else if e.unlocked then e.(program := e.program[4 := data % 128 - data % 16])
    else e
  }

  function LatchAll(d: Dac, words: seq<nat>): (r: Dac)
    requires |d.program| == 5
    ensures |r.program| == 5 && r.transfers == d.transfers + |words|
    decreases |words|
  {
    if words == [] then d else LatchAll(Latch(d, words[0]), words[1..])
  }

  lemma LatchValid(d: Dac, word: nat)
    requires DacValid(d)
    ensures DacValid(Latch(d, word))
  {
    var data := word % 512;
    assert (data - data / 32 % 2 * 32) / 32 % 2 == 0;
    assert (data % 128 - data % 16) % 16 == 0;
  }

  lemma {:induction false} LatchAllConcat(d: Dac, a: seq<nat>, b: seq<nat>)
    requires |d.program| == 5
    ensures LatchAll(d, a + b) == LatchAll(LatchAll(d, a), b)
    decreases |a|
  {
    if a == [] {
      assert a + b == b;
    } else {
      assert (a + b)[0] == a[0] && (a + b)[1..] == a[1..] + b;
      LatchAllConcat(Latch(d, a[0]), a[1..], b);
    }
  }

  // ------------------------------------------------------------------- timing

  /** Two edges a bit, the first at the C2T boundary; unsigned arithmetic wraps. */
  function ShiftTicks(format: nat): nat { (2 * (format % 32) - 1) * (format / 256 % 256 + 1) % WORD }

  function C2tTicks(delay: nat): nat { if delay / 0x1000000 == 0 then 0 else 2 * (delay / 0x1000000 + 2) }

  function T2cTicks(format: nat, delay: nat): nat {
    (if delay / 0x10000 % 256 == 0 then 0 else 2 * (delay / 0x10000 % 256 + 1)) + format / 256 % 256 + 1
  }

  predicate StrictWord(control: nat, format: nat, delay: nat) {
    WordValid(control) && format == STRICT_FORMAT && delay == STRICT_DELAY
  }

  predicate Active(t: Transfer) { t.phase != Idle || t.queued || t.txFull }

  predicate Shifting(t: Transfer) { t.phase == C2T || t.phase == Shift || t.phase == T2C }

  /** Every consistency check made of a transfer before it is used. */
  predicate TransferValid(t: Transfer) {
    && (t.phase != Idle <==> t.left != 0)
    && (Shifting(t) <==> StrictWord(t.control, t.format, t.delay))
    && (!Shifting(t) ==> t.control == 0 && t.format == 0 && t.delay == 0)
    && (t.queued <==> StrictWord(t.queuedControl, t.queuedFormat, t.queuedDelay))
    && (!t.queued ==> t.queuedControl == 0 && t.queuedFormat == 0 && t.queuedDelay == 0 && !t.txFull)
    && (t.queued ==> t.phase != Idle)
    && (t.txFull ==> t.phase == Idle || t.phase == C2T || t.phase == Shift)
  }

  /** What the code relies on between calls. */
  predicate Good(b: Board) {
    DacValid(b.dac) && TransferValid(b.transfer) && !b.transfer.fault
  }

  const NO_TRANSFER: Transfer := Transfer(Idle, 0, 0, 0, 0, 0, 0, 0, false, false, false, false)

  function Start(t: Transfer, control: nat, format: nat, delay: nat): Transfer {
    var u := t.(control := control, format := format, delay := delay, phase := C2T, left := C2tTicks(delay));
    if u.left == 0 then u.(phase := Shift, left := ShiftTicks(format)) else u
  }

  /** The converter drives no data line: what is received is the pull-up. */
  function Receive(r: Regs): Regs {
    if r.receiveEmpty then
      r.(receiveData := 0xffff, receiveStatus := r.receiveStatus * {RX_OVERRUN_STATUS}, receiveEmpty := false,
         flags := r.flags + {RX_FLAG})
    else if !r.bufferFull then r.(bufferData := 0xffff, bufferFull := true)
    else r.(flags := r.flags + {OVERRUN_FLAG}, receiveStatus := r.receiveStatus + {RX_OVERRUN_STATUS})
  }

  /** The phase that is under way ends. */
  function EndPhase(b: Board): Board
    requires |b.dac.program| == 5
  {
    var t := b.transfer;
    match t.phase
    case Idle => b
    case C2T => b.(transfer := t.(phase := Shift, left := ShiftTicks(t.format)))
    case Shift =>
      var regs := Receive(b.regs);
      b.(regs := if t.queued then regs.(flags := regs.flags + {TX_FLAG}) else regs,
         transfer := t.(phase := T2C, left := T2cTicks(t.format, t.delay), txFull := t.txFull && !t.queued))
    case T2C =>
      if !WordValid(t.control % 0x10000) then b.(transfer := t.(left := 0, fault := true))
      else
        b.(regs := if t.queued then b.regs else b.regs.(flags := b.regs.flags + {TX_FLAG}),
           dac := Latch(b.dac, t.control % 0x10000),
           transfer := t.(phase := Gap, left := 4, control := 0, format := 0, delay := 0,
                          previousCshold := t.control / 0x10000000 % 2 == 1))
    case Gap =>
      if t.queued then
        b.(regs := b.regs.(flags := b.regs.flags + {TX_FLAG}),
           transfer := Start(t.(queuedControl := 0, queuedFormat := 0, queuedDelay := 0, queued := false, txFull := false),
                             t.queuedControl, t.queuedFormat, t.queuedDelay))
      else b.(transfer := t.(phase := Idle, left := 0))
  }

  /** Time passing over a good board, phase by phase. */
  function Flow(b: Board, n: nat): (r: Board)
    requires Good(b)
    ensures Good(r)
    decreases n
  {
    if n == 0 || b.transfer.phase == Idle then b
    else if n < b.transfer.left then b.(transfer := b.transfer.(left := b.transfer.left - n))
    else
      EndPhaseGood(b);
      Flow(EndPhase(b), n - b.transfer.left)
  }

  datatype Reply = Reply(ok: bool, board: Board)

  function Advance(b: Board, n: nat): Reply {
    if !Good(b) then Reply(false, b.(transfer := b.transfer.(fault := true))) else Reply(true, Flow(b, n))
  }

  lemma StrictTimes()
    ensures C2tTicks(STRICT_DELAY) == 8 && ShiftTicks(STRICT_FORMAT) == 775 && T2cTicks(STRICT_FORMAT, STRICT_DELAY) == 31
  {
  }

  lemma EndPhaseGood(b: Board)
    requires Good(b)
    ensures Good(EndPhase(b))
  {
    var t := b.transfer;
    StrictTimes();
    assert !StrictWord(0, 0, 0);
    if t.phase == T2C {
      assert t.control % 0x10000 == t.control;
      LatchValid(b.dac, t.control);
    }
    hide Latch, WordValid, Receive, DacValid, C2tTicks, ShiftTicks, T2cTicks;
  }

  // ------------------------------------------------------------- guest access

  predicate StrictConfiguration(b: Board, word: nat) {
    && DacValid(b.dac) && b.regs.gcr1 == STRICT_GCR1 && b.regs.pinFunction == STRICT_PINS
    && b.regs.interruptEnable == {} && b.regs.interruptLevel == {} && b.regs.chipSelectDefault == 0xff
    && b.regs.format0 == STRICT_FORMAT && b.regs.delay == STRICT_DELAY && WordValid(word)
  }

  /** A committed word: into the empty shift register, or behind the one being shifted. */
  function Accept(b: Board, word: nat): Board {
    var regs, t := b.regs.(dat1 := word), b.transfer;
    var full, clear := regs.(flags := regs.flags + {TX_FLAG}), regs.(flags := regs.flags - {TX_FLAG});
    if !Active(t) then b.(regs := full, transfer := Start(t, word, b.regs.format0, b.regs.delay))
    else
      var vacated := t.phase == T2C || t.phase == Gap;
      b.(regs := if vacated then full else clear,
         transfer := t.(queuedControl := word, queuedFormat := b.regs.format0, queuedDelay := b.regs.delay,
                        queued := true, txFull := !vacated))
  }

  predicate Accepts(b: Board, word: nat) {
    Good(b) && StrictConfiguration(b, word) && !b.transfer.previousCshold && !b.transfer.queued
  }

  /**
   A word-sized guest write to SPI1 at an aligned offset.  `plain` is what the plain register
   writer makes of the same write: the registers it would leave, if it accepts.
   */
  function Write(b: Board, offset: nat, word: nat, plain: Option<Regs>, commit: bool): Reply {
    var reset, disable := offset == 0 && word % 2 == 0, offset == 4 && word / 0x1000000 % 2 == 0;
    if !TransferValid(b.transfer) || b.transfer.fault then Reply(false, b)
    else if Active(b.transfer) && !reset && !disable && offset != 0x10 && offset != 0x3c then Reply(false, b)
    else if offset != 0x3c || ENABLE !in b.regs.gcr1 then
      if plain.None? then Reply(false, b)
      else if !commit then Reply(true, b)
      else
        var t := if reset || disable then NO_TRANSFER else b.transfer;
        var u := if offset == 0x3c then t.(previousCshold := word / 0x10000000 % 2 == 1) else t;
        Reply(true, b.(regs := plain.value, transfer := u))
    else if !Accepts(b, word) then Reply(false, b)
    else Reply(true, if commit then Accept(b, word) else b)
  }

  lemma WriteKeepsGood(b: Board, offset: nat, word: nat, plain: Option<Regs>, commit: bool)
    requires Good(b)
    ensures Good(Write(b, offset, word, plain, commit).board)
  {
    hide WordValid;
    assert C2tTicks(STRICT_DELAY) == 8;
    assert !StrictWord(0, 0, 0);
  }

  // ------------------------------------------------------- time is additive

  /** Two calls do what one call for the total does, from any state the code may find itself in. */
  lemma {:induction false} FlowAdds(b: Board, m: nat, n: nat)
    requires Good(b)
    ensures Flow(Flow(b, m), n) == Flow(b, m + n)
    decreases m
  {
    hide *;
    FlowStill(b, m);
    if m != 0 && b.transfer.phase != Idle {
      var left := b.transfer.left;
      if m < left {
        FlowPart(b, m, n);
      } else {
        FlowOnce(b, m);
        FlowOnce(b, m + n);
        FlowAdds(EndPhase(b), m - left, n);
      }
    } else if m == 0 {
    } else {
      FlowStill(b, n);
      FlowStill(b, m + n);
    }
  }

  lemma FlowStill(b: Board, n: nat)
    requires Good(b)
    ensures n == 0 || b.transfer.phase == Idle ==> Flow(b, n) == b
  {
    hide Good, EndPhase;
  }

  lemma FlowPart(b: Board, m: nat, n: nat)
    requires Good(b) && 0 < m < b.transfer.left && b.transfer.phase != Idle
    ensures Good(Flow(b, m)) && Flow(Flow(b, m), n) == Flow(b, m + n)
  {
    var u := b.(transfer := b.transfer.(left := b.transfer.left - m));
    assert Good(u) && Flow(b, m) == u && |b.dac.program| == 5;
    assert EndPhase(u) == EndPhase(b);
    hide Good, EndPhase;
  }

  lemma AdvanceAdds(b: Board, m: nat, n: nat)
    ensures Advance(Advance(b, m).board, n) == Advance(b, m + n)
    ensures Good(b) ==> Advance(b, m).ok && Good(Advance(b, m).board)
  {
    if Good(b) {
      FlowAdds(b, m, n);
    }
    hide Flow, TransferValid;
  }

  // ------------------------------------------------- nothing lost, and when

  /** The words accepted but not yet latched, in order. */
  function Outstanding(t: Transfer): (r: seq<nat>)
    ensures |r| <= 2
  {
    (if Shifting(t) then [t.control] else []) + (if t.queued then [t.queuedControl] else [])
  }

  const WORD_TIME: nat := 8 + 775 + 31
  const GAP_TIME: nat := 4

  /** Half ticks until the word being shifted latches, or for the gap until it is over. */
  function ToLatch(t: Transfer): nat {
    match t.phase
    case Idle => 0
    case C2T => t.left + 775 + 31
    case Shift => t.left + 31
    case T2C => t.left
    case Gap => t.left
  }

  function ToFree(t: Transfer): nat { if Shifting(t) then ToLatch(t) + GAP_TIME else ToLatch(t) }

  /** When each outstanding word will be latched, from now. */
  function Dues(t: Transfer): (r: seq<int>)
    ensures |r| == |Outstanding(t)|
  {
    (if Shifting(t) then [ToLatch(t)] else []) + (if t.queued then [ToFree(t) + WORD_TIME] else [])
  }

  function Minus(ds: seq<int>, n: int): (r: seq<int>)
    ensures |r| == |ds|
  {
    seq(|ds|, i requires 0 <= i < |ds| => ds[i] - n)
  }

  /** How many of the times in `ds` have come after `n`. */
  function Ripe(ds: seq<int>, n: int): (k: nat)
    ensures k <= |ds|
    decreases |ds|
  {
    if ds == [] || n < ds[0] then 0 else 1 + Ripe(ds[1..], n)
  }

  /** After `n` half ticks exactly the words due by then have been latched, in order, and the rest are that much nearer. */
  ghost predicate Passes(b: Board, n: nat, r: Board)
    requires |b.dac.program| == 5
  {
    var k := Ripe(Dues(b.transfer), n);
    && Outstanding(r.transfer) == Outstanding(b.transfer)[k..]
    && Dues(r.transfer) == Minus(Dues(b.transfer)[k..], n)
    && r.dac == LatchAll(b.dac, Outstanding(b.transfer)[..k])
  }

  /** The phase that ends latches the word in front, whose time is up. */
  ghost predicate Latches(b: Board, r: Board)
    requires |b.dac.program| == 5
  {
    var t := b.transfer;
    && Outstanding(t) != [] && Dues(t)[0] == t.left && Outstanding(r.transfer) == Outstanding(t)[1..]
    && Dues(r.transfer) == Minus(Dues(t)[1..], t.left) && r.dac == Latch(b.dac, Outstanding(t)[0])
  }

  /** The phase that ends latches nothing, and nothing was due by then. */
  ghost predicate LetsPass(b: Board, r: Board) {
    var t := b.transfer;
    && Outstanding(r.transfer) == Outstanding(t) && Dues(r.transfer) == Minus(Dues(t), t.left) && r.dac == b.dac
    && (Dues(t) != [] ==> Dues(t)[0] > t.left)
  }

  /** The end of a phase latches the word in front exactly when its time is up. */
  lemma EndPhasePasses(b: Board)
    requires Good(b) && b.transfer.phase != Idle
    ensures |b.dac.program| == 5
    ensures if b.transfer.phase == T2C then Latches(b, EndPhase(b)) else LetsPass(b, EndPhase(b))
  {
    assert |b.dac.program| == 5;
    if b.transfer.phase == T2C {
      hide *;
      T2cLatches(b);
    } else {
      hide *;
      OthersPass(b);
    }
  }

  lemma T2cLatches(b: Board)
    requires Good(b) && b.transfer.phase == T2C && |b.dac.program| == 5
    ensures Latches(b, EndPhase(b))
  {
    StrictTimes();
    assert b.transfer.control % 0x10000 == b.transfer.control;
    hide Latch, Receive, WordValid, C2tTicks, ShiftTicks, T2cTicks, DacValid;
  }

  lemma OthersPass(b: Board)
    requires Good(b) && b.transfer.phase != Idle && b.transfer.phase != T2C && |b.dac.program| == 5
    ensures LetsPass(b, EndPhase(b))
  {
    StrictTimes();
    hide Latch, Receive, WordValid, C2tTicks, ShiftTicks, T2cTicks, DacValid;
  }

  lemma {:induction false} RipeMinus(ds: seq<int>, m: int, n: int)
    ensures Ripe(Minus(ds, m), n - m) == Ripe(ds, n)
    decreases |ds|
  {
    if ds != [] {
      assert Minus(ds, m)[1..] == Minus(ds[1..], m);
      RipeMinus(ds[1..], m, n);
    }
  }

  lemma MinusMinus(ds: seq<int>, k: nat, m: int, n: int)
    requires k <= |ds|
    ensures Minus(Minus(ds, m)[k..], n) == Minus(ds[k..], m + n)
  {
  }

  lemma NotYet(b: Board, n: nat)
    requires Good(b) && (n == 0 || b.transfer.phase == Idle || n < b.transfer.left)
    ensures Ripe(Dues(b.transfer), n) == 0
    ensures Passes(b, n, Flow(b, n))
  {
    var t, r := b.transfer, Flow(b, n);
    hide WordValid, DacValid, EndPhase;
    assert Dues(t) != [] ==> Dues(t)[0] > n;
    assert r.transfer == t.(left := r.transfer.left) && (t.phase == Idle || r.transfer.left == t.left - n);
    hide Flow;
    assert Dues(r.transfer) == Minus(Dues(t), n);
    assert Dues(t)[0..] == Dues(t);
  }

  lemma FlowOnce(b: Board, n: nat)
    requires Good(b) && n >= b.transfer.left && b.transfer.phase != Idle
    ensures b.transfer.left > 0 && Good(EndPhase(b)) && |b.dac.program| == |EndPhase(b).dac.program| == 5
    ensures Flow(b, n) == Flow(EndPhase(b), n - b.transfer.left)
  {
    assert b.transfer.left > 0;
    EndPhaseGood(b);
    hide TransferValid, EndPhase;
  }

  lemma PassesOnward(b: Board, n: nat, f: Board)
    requires Good(b) && n >= b.transfer.left && b.transfer.phase != Idle && |b.dac.program| == |EndPhase(b).dac.program| == 5
    requires Passes(EndPhase(b), n - b.transfer.left, f)
    ensures Passes(b, n, f)
  {
    EndPhasePasses(b);
    hide Good, EndPhase, Latches, LetsPass, Passes;
    if b.transfer.phase == T2C {
      PassesLatching(b, EndPhase(b), f, n);
    } else {
      PassesWaiting(b, EndPhase(b), f, n);
    }
  }

  lemma {:induction false} FlowPasses(b: Board, n: nat)
    requires Good(b)
    ensures |b.dac.program| == 5 && Passes(b, n, Flow(b, n))
    decreases n
  {
    hide Passes, TransferValid, EndPhase;
    if n == 0 || b.transfer.phase == Idle || n < b.transfer.left {
      NotYet(b, n);
      hide Flow;
    } else {
      FlowOnce(b, n);
      hide Flow, Good;
      FlowPasses(EndPhase(b), n - b.transfer.left);
      PassesOnward(b, n, Flow(b, n));
    }
  }

  lemma PassesLatching(b: Board, r: Board, f: Board, n: nat)
    requires |b.dac.program| == |r.dac.program| == 5 && b.transfer.left <= n
    requires Latches(b, r) && Passes(r, n - b.transfer.left, f)
    ensures Passes(b, n, f)
  {
    var left, ds, out := b.transfer.left, Dues(b.transfer), Outstanding(b.transfer);
    hide Dues, Outstanding, Latch;
    RipeMinus(ds[1..], left, n);
    var k := Ripe(ds[1..], n);
    assert Ripe(ds, n) == 1 + k;
    MinusMinus(ds[1..], k, left, n - left);
    assert ds[1..][k..] == ds[1 + k..] && out[1..][k..] == out[1 + k..];
    assert out[..1 + k][0] == out[0] && out[..1 + k][1..] == out[1..][..k];
    hide Ripe, Minus;
  }

  lemma PassesWaiting(b: Board, r: Board, f: Board, n: nat)
    requires |b.dac.program| == |r.dac.program| == 5 && b.transfer.left <= n
    requires LetsPass(b, r) && Passes(r, n - b.transfer.left, f)
    ensures Passes(b, n, f)
  {
    var left, ds := b.transfer.left, Dues(b.transfer);
    hide Dues, Outstanding, LatchAll;
    RipeMinus(ds, left, n);
    MinusMinus(ds, Ripe(ds, n), left, n - left);
    hide Ripe, Minus;
  }

  /** Half ticks until the board is idle again. */
  function ToIdle(t: Transfer): nat { ToFree(t) + if t.queued then WORD_TIME + GAP_TIME else 0 }

  lemma EndPhaseIdles(b: Board)
    requires Good(b) && b.transfer.phase != Idle
    ensures ToIdle(EndPhase(b).transfer) == ToIdle(b.transfer) - b.transfer.left
  {
    StrictTimes();
    if b.transfer.phase == T2C {
      assert b.transfer.control % 0x10000 == b.transfer.control;
    }
    hide Latch, Receive, WordValid, C2tTicks, ShiftTicks, T2cTicks, DacValid;
  }

  lemma {:induction false} FlowIdles(b: Board, n: nat)
    requires Good(b)
    ensures ToIdle(Flow(b, n).transfer) == if n < ToIdle(b.transfer) then ToIdle(b.transfer) - n else 0
    ensures Flow(b, n).transfer.phase == Idle <==> n >= ToIdle(b.transfer)
    decreases n
  {
    if n >= b.transfer.left && b.transfer.phase != Idle {
      hide *;
      FlowOnce(b, n);
      EndPhaseIdles(b);
      FlowIdles(EndPhase(b), n - b.transfer.left);
      IdleLeft(b);
    } else {
      assert |b.dac.program| == 5;
      hide WordValid, DacValid, EndPhase;
    }
  }

  lemma IdleLeft(b: Board)
    requires Good(b)
    ensures ToIdle(b.transfer) >= b.transfer.left
  {
    StrictTimes();
    hide Latch, Receive, WordValid, C2tTicks, ShiftTicks, T2cTicks, DacValid;
  }

  /** A word given to an idle board is latched after 814 half ticks, not one before, and the board is idle after 818. */
  lemma OneWord(b: Board, word: nat, n: nat)
    requires Accepts(b, word) && b.transfer.phase == Idle
    ensures Good(Accept(b, word))
    ensures Flow(Accept(b, word), n).dac == if n >= WORD_TIME then Latch(b.dac, word) else b.dac
    ensures Flow(Accept(b, word), n).transfer.phase == Idle <==> n >= WORD_TIME + GAP_TIME
  {
    AcceptIdle(b, word);
    hide Flow, Latch, Good, Accepts, Accept, Dues, Outstanding, ToIdle;
    FlowPasses(Accept(b, word), n);
    FlowIdles(Accept(b, word), n);
    PassOne(Accept(b, word), n, Flow(Accept(b, word), n), WORD_TIME, word);
  }

  lemma AcceptIdle(b: Board, word: nat)
    requires Accepts(b, word) && b.transfer.phase == Idle
    ensures var c := Accept(b, word);
            && Good(c) && c.dac == b.dac && |c.dac.program| == 5 && Outstanding(c.transfer) == [word]
            && Dues(c.transfer) == [WORD_TIME] && ToIdle(c.transfer) == WORD_TIME + GAP_TIME
  {
    StrictTimes();
    hide C2tTicks, ShiftTicks, T2cTicks, WordValid;
  }

  /** A second word given `m` half ticks into the first is latched 818 half ticks after it. */
  lemma TwoWords(b: Board, first: nat, m: nat, regs: Regs, second: nat, n: nat)
    requires Accepts(b, first) && b.transfer.phase == Idle && m < WORD_TIME + GAP_TIME
    requires Good(Accept(b, first))
    requires var c := Flow(Accept(b, first), m).(regs := regs); Accepts(c, second)
    ensures var d := Accept(Flow(Accept(b, first), m).(regs := regs), second);
            && Good(d)
            && Flow(d, n).dac == if m + n >= 2 * WORD_TIME + GAP_TIME then Latch(Latch(b.dac, first), second)
                                 else if m + n >= WORD_TIME then Latch(b.dac, first) else b.dac
  {
    FirstStage(b, first, m);
    var c := Flow(Accept(b, first), m).(regs := regs);
    hide Flow, Good;
    assert ToIdle(c.transfer) == WORD_TIME + GAP_TIME - m;
    SecondDues(c, second, WORD_TIME + GAP_TIME - m);
    var d := Accept(c, second);
    hide Accepts, Accept, Dues, Outstanding, ToIdle;
    FlowPasses(d, n);
    if m >= WORD_TIME {
      PassOne(d, n, Flow(d, n), 2 * WORD_TIME + GAP_TIME - m, second);
    } else {
      PassTwo(d, n, Flow(d, n), WORD_TIME - m, first, 2 * WORD_TIME + GAP_TIME - m, second);
    }
  }

  lemma PassOne(b: Board, n: nat, r: Board, due: int, word: nat)
    requires |b.dac.program| == 5 && Passes(b, n, r) && Dues(b.transfer) == [due] && Outstanding(b.transfer) == [word]
    ensures r.dac == if n >= due then Latch(b.dac, word) else b.dac
    ensures n < due ==> Outstanding(r.transfer) == [word] && Dues(r.transfer) == [due - n]
    ensures n >= due ==> Outstanding(r.transfer) == [] && Dues(r.transfer) == []
  {
    hide Dues, Outstanding, Latch;
    assert [due][1..] == [] && [word][..0] == [] && [word][..1] == [word];
    assert LatchAll(b.dac, [word]) == Latch(b.dac, word);
  }

  lemma PassTwo(b: Board, n: nat, r: Board, due: int, word: nat, due': int, word': nat)
    requires |b.dac.program| == 5 && Passes(b, n, r) && due < due'
    requires Dues(b.transfer) == [due, due'] && Outstanding(b.transfer) == [word, word']
    ensures r.dac == if n >= due' then Latch(Latch(b.dac, word), word') else if n >= due then Latch(b.dac, word) else b.dac
  {
    hide Dues, Outstanding, Latch;
    assert [due, due'][1..] == [due'] && [due'][1..] == [];
    assert Ripe([due'], n) == if n >= due' then 1 else 0;
    assert [word, word'][..0] == [] && [word, word'][..1] == [word] && [word, word'][..2] == [word, word'];
    assert LatchAll(b.dac, [word]) == Latch(b.dac, word);
    assert [word, word'][1..] == [word'];
    assert LatchAll(Latch(b.dac, word), [word']) == Latch(Latch(b.dac, word), word');
  }

  /** Part of the way through a first word. */
  lemma FirstStage(b: Board, first: nat, m: nat)
    requires Accepts(b, first) && b.transfer.phase == Idle && m < WORD_TIME + GAP_TIME && Good(Accept(b, first))
    ensures var c := Flow(Accept(b, first), m);
            && Good(c) && c.transfer.phase != Idle && ToIdle(c.transfer) == WORD_TIME + GAP_TIME - m
            && (m < WORD_TIME ==> c.dac == b.dac && Outstanding(c.transfer) == [first] && Dues(c.transfer) == [WORD_TIME - m])
            && (m >= WORD_TIME ==> c.dac == Latch(b.dac, first) && Outstanding(c.transfer) == [] && Dues(c.transfer) == [])
  {
    var a := Accept(b, first);
    AcceptIdle(b, first);
    hide Flow, Latch, Good, Accepts, Accept, Dues, Outstanding, ToIdle;
    FlowPasses(a, m);
    FlowIdles(a, m);
    PassOne(a, m, Flow(a, m), WORD_TIME, first);
  }

  lemma SecondDues(c: Board, second: nat, free: nat)
    requires Accepts(c, second) && c.transfer.phase != Idle && ToIdle(c.transfer) == free
    ensures var d := Accept(c, second);
            && Good(d) && d.dac == c.dac && Outstanding(d.transfer) == Outstanding(c.transfer) + [second]
            && Dues(d.transfer) == Dues(c.transfer) + [free + WORD_TIME]
  {
    StrictTimes();
    hide C2tTicks, ShiftTicks, T2cTicks, WordValid;
  }

  // --------------------------------------------------------------- whole runs

  /** What the guest and the board do: a register write, a read or a pin that changes registers, or time. */
  datatype Op =
    | Store(offset: nat, word: nat, plain: Option<Regs>)
    | Sense(regs: Regs)
    | Tick(n: nat)

  predicate Stops(op: Op) {
    op.Store? && ((op.offset == 0 && op.word % 2 == 0) || (op.offset == 4 && op.word / 0x1000000 % 2 == 0))
  }

  function Do(b: Board, op: Op): (r: Board) {
    match op
    case Store(offset, word, plain) => Write(b, offset, word, plain, true).board
    case Sense(regs) => b.(regs := regs)
    case Tick(n) => Advance(b, n).board
  }

  /** The words accepted so far, without those a reset or disable threw away. */
  function Log(b: Board, log: seq<nat>, op: Op): (r: seq<nat>)
    requires |log| >= |Outstanding(b.transfer)|
  {
    if !op.Store? || !Write(b, op.offset, op.word, op.plain, true).ok then log
    else if Stops(op) then log[..|log| - |Outstanding(b.transfer)|]
    else if op.offset == 0x3c && ENABLE in b.regs.gcr1 then log + [op.word]
    else log
  }

  /** The converter has latched every logged word but the outstanding ones, once each and in order. */
  ghost predicate Accounted(dac0: Dac, b: Board, log: seq<nat>)
    requires |dac0.program| == 5
  {
    var out := Outstanding(b.transfer);
    && Good(b) && |out| <= |log|
    && log[|log| - |out|..] == out
    && b.dac == LatchAll(dac0, log[..|log| - |out|])
  }

  lemma DoAccounted(dac0: Dac, b: Board, log: seq<nat>, op: Op)
    requires |dac0.program| == 5 && Accounted(dac0, b, log)
    ensures Accounted(dac0, Do(b, op), Log(b, log, op))
  {
    match op
    case Sense(_) =>
    case Tick(n) =>
      FlowPasses(b, n);
      hide Flow, TransferValid, DacValid;
      TickAccounted(dac0, b, log, n, Flow(b, n));
    case Store(offset, word, plain) =>
      StoreAccounted(dac0, b, log, offset, word, plain);
  }

  lemma TickAccounted(dac0: Dac, b: Board, log: seq<nat>, n: nat, r: Board)
    requires |dac0.program| == |b.dac.program| == 5 && Accounted(dac0, b, log) && Passes(b, n, r) && Good(r)
    ensures Accounted(dac0, r, log)
  {
    var out, k := Outstanding(b.transfer), Ripe(Dues(b.transfer), n);
    hide Good, Outstanding, Dues, LatchAll, Ripe, Minus;
    LatchAllConcat(dac0, log[..|log| - |out|], out[..k]);
    TakenFromLog(log, out, k);
  }

  lemma TakenFromLog(log: seq<nat>, out: seq<nat>, k: nat)
    requires |out| <= |log| && log[|log| - |out|..] == out && k <= |out|
    ensures log[..|log| - |out[k..]|] == log[..|log| - |out|] + out[..k]
    ensures log[|log| - |out[k..]|..] == out[k..]
  {
    var n := |log| - |out|;
    assert log == log[..n] + out;
    assert |log| - |out[k..]| == n + k;
  }

  lemma StoreAccounted(dac0: Dac, b: Board, log: seq<nat>, offset: nat, word: nat, plain: Option<Regs>)
    requires |dac0.program| == 5 && Accounted(dac0, b, log)
    ensures var op := Store(offset, word, plain); Accounted(dac0, Do(b, op), Log(b, log, op))
  {
    var op, r := Store(offset, word, plain), Write(b, offset, word, plain, true);
    var out, out' := Outstanding(b.transfer), Outstanding(r.board.transfer);
    WriteKeepsGood(b, offset, word, plain, true);
    StoreMoves(b, offset, word, plain);
    var log' := Log(b, log, op);
    hide Good, Write, Outstanding, LatchAll, Stops;
    if r.ok && Stops(op) {
      assert log'[..|log'| - |out'|] == log' == log[..|log| - |out|];
    } else if r.ok && offset == 0x3c && ENABLE in b.regs.gcr1 {
      assert |log'| - |out'| == |log| - |out|;
      assert log'[..|log'| - |out'|] == log[..|log| - |out|];
      assert log'[|log'| - |out'|..] == log[|log| - |out|..] + [word];
    }
  }

  lemma StoreMoves(b: Board, offset: nat, word: nat, plain: Option<Regs>)
    requires Good(b)
    ensures var op, r := Store(offset, word, plain), Write(b, offset, word, plain, true);
            && r.board.dac == b.dac
            && Outstanding(r.board.transfer) ==
               if !r.ok then Outstanding(b.transfer) else if Stops(op) then []
               else if offset == 0x3c && ENABLE in b.regs.gcr1 then Outstanding(b.transfer) + [word]
               else Outstanding(b.transfer)
  {
    hide WordValid, DacValid;
  }

  function Play(b: Board, ops: seq<Op>): Board
    decreases |ops|
  {
    if ops == [] then b else Do(Play(b, ops[..|ops| - 1]), ops[|ops| - 1])
  }

  /** The log of a whole run from a board with nothing outstanding. */
  function Accepted(b: Board, ops: seq<Op>): (r: seq<nat>)
    requires Good(b) && Outstanding(b.transfer) == []
    ensures Accounted(b.dac, Play(b, ops), r)
    decreases |ops|
  {
    if ops == [] then []
    else
      var log := Accepted(b, ops[..|ops| - 1]);
      DoAccounted(b.dac, Play(b, ops[..|ops| - 1]), log, ops[|ops| - 1]);
      Log(Play(b, ops[..|ops| - 1]), log, ops[|ops| - 1])
  }

  /**
   Over any run of writes, reads and time the converter has latched exactly the accepted
   words in order, once each, but for the outstanding ones and those a reset or disable
   threw away: latched + in flight + queued = accepted.
   */
  lemma NothingLost(b: Board, ops: seq<Op>)
    requires Good(b) && Outstanding(b.transfer) == []
    ensures var log, r := Accepted(b, ops), Play(b, ops);
            var latched := |log| - |Outstanding(r.transfer)|;
            && Good(r) && 0 <= latched && log == log[..latched] + Outstanding(r.transfer)
            && r.dac == LatchAll(b.dac, log[..latched])
            && r.dac.transfers == b.dac.transfers + latched
  {
    hide Play, Good, Outstanding;
  }

  // ------------------------------------------------------ the board in place

  class Machine {
    var regs: Regs
    var dac: Dac
    var transfer: Transfer

    function State(): Board
      reads this
    {
      Board(regs, dac, transfer)
    }

    /** Consume half ticks phase by phase. */
    method Pass(halfTicks: nat) returns (ok: bool)
      modifies this
      ensures Reply(ok, State()) == Advance(old(State()), halfTicks)
    {
      if !DacValid(dac) || !TransferValid(transfer) || transfer.fault {
        transfer := transfer.(fault := true);
        return false;
      }
      ok := true;
      var ticks: nat := halfTicks;
      while ticks != 0 && transfer.phase != Idle
        invariant Good(State()) && Flow(State(), ticks) == Flow(old(State()), halfTicks)
      {
        hide DacValid, TransferValid, Latch;
        if ticks < transfer.left {
          transfer := transfer.(left := transfer.left - ticks);
          break;
        }
        ghost var before := State();
        EndPhaseGood(before);
        ticks := ticks - transfer.left;
        End();
        assert Flow(before, ticks + before.transfer.left) == Flow(State(), ticks);
      }
    }

    /** The phase that is under way ends. */
    method End()
      requires Good(State()) && transfer.phase != Idle
      modifies this
      ensures State() == EndPhase(old(State()))
    {
      match transfer.phase
      case Idle => assert false;
      case C2T =>
        transfer := transfer.(phase := Shift, left := ShiftTicks(transfer.format));
      case Shift =>
        regs := Receive(regs);
        if transfer.queued {
          transfer := transfer.(txFull := false);
          regs := regs.(flags := regs.flags + {TX_FLAG});
        }
        transfer := transfer.(phase := T2C, left := T2cTicks(transfer.format, transfer.delay));
      case T2C =>
        assert transfer.control % 0x10000 == transfer.control;
        dac := Latch(dac, transfer.control);
        transfer := transfer.(previousCshold := transfer.control / 0x10000000 % 2 == 1);
        transfer := transfer.(control := 0, format := 0, delay := 0, phase := Gap, left := 4);
        if !transfer.queued {
          regs := regs.(flags := regs.flags + {TX_FLAG});
        }
      case Gap =>
        if transfer.queued {
          var control, format, delay := transfer.queuedControl, transfer.queuedFormat, transfer.queuedDelay;
          transfer := transfer.(queuedControl := 0, queuedFormat := 0, queuedDelay := 0, queued := false, txFull := false);
          transfer := Start(transfer, control, format, delay);
          regs := regs.(flags := regs.flags + {TX_FLAG});
        } else {
          transfer := transfer.(phase := Idle, left := 0);
        }
    }

    /** A guest write: checked in full before anything changes. */
    method Put(offset: nat, word: nat, plain: Option<Regs>, commit: bool) returns (ok: bool)
      modifies this
      ensures Reply(ok, State()) == Write(old(State()), offset, word, plain, commit)
    {
      hide DacValid, TransferValid, Accept, StrictConfiguration;
      if !TransferValid(transfer) || transfer.fault {
        return false;
      }
      var reset, disable := offset == 0 && word % 2 == 0, offset == 4 && word / 0x1000000 % 2 == 0;
      if Active(transfer) && !reset && !disable && offset != 0x10 && offset != 0x3c {
        return false;
      }
      if offset != 0x3c || ENABLE !in regs.gcr1 {
        if plain.None? {
          return false;
        }
        if commit {
          regs := plain.value;
          if reset || disable {
            transfer := NO_TRANSFER;
          }
          if offset == 0x3c {
            transfer := transfer.(previousCshold := word / 0x10000000 % 2 == 1);
          }
        }
        return true;
      }
      ok := Accepts(State(), word);
      if ok && commit {
        Take(word);
      }
    }

    /** Take a committed word: into the empty shift register, or behind the one being shifted. */
    method Take(word: nat)
      requires Accepts(State(), word)
      modifies this
      ensures State() == Accept(old(State()), word)
    {
      regs := regs.(dat1 := word, flags := regs.flags - {TX_FLAG});
      if !Active(transfer) {
        transfer := Start(transfer, word, regs.format0, regs.delay);
        regs := regs.(flags := regs.flags + {TX_FLAG});
      } else {
        transfer := transfer.(queuedControl := word, queuedFormat := regs.format0, queuedDelay := regs.delay, queued := true);
        if transfer.phase == T2C || transfer.phase == Gap {
          transfer := transfer.(txFull := false);
          regs := regs.(flags := regs.flags + {TX_FLAG});
        } else {
          transfer := transfer.(txFull := true);
        }
      }
    }
  }
}
