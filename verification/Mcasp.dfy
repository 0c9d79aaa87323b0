/**
 The transmit side of one McASP (SPRUH91D chapter 24): buffers written through two ports,
 moved into the shift registers in lockstep at a slot boundary, with the ready flags, the
 service event and the slot counter that go with it.  Registers used bit by bit are sets.

 What any sequence of operations keeps (`DoValid`, `RunTraced`) comes first; then a boundary
 and the words that follow it (`SlotWaits`, `DmaFills`, `ExcessOnlyErrs`, `SlotsCycle`).
 */
module Mcasp {
  import opened Common

  const U64_MAX: nat := 0xffff_ffff_ffff_ffff
  const RESET_SLOT: nat := 0x17f

  // Bits of XSTAT, and of GBLCTL.
  const UNDERRUN: nat := 0
  const XDATA: nat := 5
  const DMA_ERROR: nat := 7
  const XCLKRST: nat := 8
  const XSRCLR: nat := 10
  const XSMRST: nat := 11
  const XFRST: nat := 12
  const TX_RUN: set<nat> := {8, 9, 10, 11, 12}
  const GBL_BITS: set<nat> := {0, 1, 2, 3, 4, 8, 9, 10, 11, 12}

  /** A word moved into a shift register: which, from which accepted write, and its value. */
  datatype Shift = Shift(serializer: nat, sequence: nat, word: nat)

  datatype Mcasp = Mcasp(
    count: nat,
    gblctl: set<nat>, ditctl: nat, xfmt: nat, afsxctl: nat, xtdm: set<nat>,
    srctl: seq<nat>, xrdy: set<nat>, xstat: set<nat>,
    xbuf: seq<nat>, bufSequence: seq<nat>, xrsr: seq<nat>, rsrSource: seq<nat>,
    dmaNext: nat, xslot: nat, writes: nat, generation: nat, boundaries: nat,
    /* History: every word accepted, with its serializer, and every word moved on. */
    accepted: seq<(nat, nat)>, shifted: seq<Shift>)

  predicate Shaped(s: Mcasp) {
    |s.srctl| == |s.xbuf| == |s.bufSequence| == |s.xrsr| == |s.rsrSource| == s.count
  }

  predicate IsTx(s: Mcasp, n: nat) requires Shaped(s) { n < s.count && s.srctl[n] % 4 == 1 }

  function ActiveTx(s: Mcasp): (r: set<nat>)
    requires Shaped(s)
    ensures forall n :: n in r <==> IsTx(s, n)
  {
    set n | 0 <= n < s.count && s.srctl[n] % 4 == 1
  }

  /** The first transmit serializer from `after` on, or the count if there is none. */
  function NextTx(s: Mcasp, after: nat): (r: nat)
    requires Shaped(s)
    ensures r <= s.count && (r < s.count ==> after <= r && IsTx(s, r))
    ensures forall n | after <= n < r :: !IsTx(s, n)
    decreases s.count - after
  {
    if after >= s.count then s.count else if IsTx(s, after) then after else NextTx(s, after + 1)
  }

  predicate LegalFmt(v: nat) {
    v < 0x40000 && v / 0x10000 != 3 && v / 0x2000 % 4 != 3 && v / 16 % 16 >= 3 && v / 16 % 2 == 1
  }

  predicate LegalAfsx(v: nat) {
    var mode := v / 0x80;
    v < 0x10000 && v / 4 % 4 == 0 && v / 0x20 % 4 == 0 && (mode == 0 || 2 <= mode <= 0x20 || mode == 0x180)
  }

  predicate LegalSrctl(v: nat) { v < 16 && v % 4 != 3 && v / 4 != 1 }

  predicate LegalDit(v: nat) { v < 16 && v / 2 % 2 == 0 }

  /** What is checked of restored state, for the registers modelled. */
  predicate Valid(s: Mcasp) {
    && Shaped(s) && 0 < s.count <= 16
    && LegalDit(s.ditctl) && (s.xfmt == 0 || LegalFmt(s.xfmt)) && LegalAfsx(s.afsxctl)
    && s.dmaNext <= s.count && s.xslot <= RESET_SLOT
    && (forall n | n in s.xrdy :: IsTx(s, n))
    && (XDATA in s.xstat ==> s.xrdy != {})
    && (forall n | 0 <= n < s.count :: LegalSrctl(s.srctl[n]))
    && (forall n | 0 <= n < s.count :: s.rsrSource[n] <= s.bufSequence[n] <= s.writes)
    && (forall n | 0 <= n < s.count :: s.rsrSource[n] == 0 ==> s.xrsr[n] == 0)
  }

  function Reset(count: nat): Mcasp {
    var zeros := seq(count, i => 0);
    Mcasp(count, {}, 0, 0, 0, {}, zeros, {}, {}, zeros, zeros, zeros, zeros, count, RESET_SLOT, 0, 0, 0, [], [])
  }

  // ------------------------------------------------------------------ writes

  /** The service event goes down when no transmit serializer is ready any more. */
  function Settled(s: Mcasp): Mcasp
    requires Shaped(s)
  {
    if s.xrdy * ActiveTx(s) == {} then s.(xstat := s.xstat - {XDATA}) else s
  }

  function NoteWrite(s: Mcasp, n: nat, v: nat): (r: Mcasp)
    requires Shaped(s) && n < s.count
    ensures Shaped(r)
  {
    Settled(s.(xbuf := s.xbuf[n := v], bufSequence := s.bufSequence[n := s.writes + 1], writes := s.writes + 1,
               xrdy := s.xrdy - {n}, accepted := s.accepted + [(n, v)]))
  }

  /** XBUSEL: the peripheral port is selected instead of the DMA port. */
  predicate PeripheralPort(s: Mcasp) { s.xfmt / 8 % 2 == 1 }

  function DmaWrite(s: Mcasp, v: nat): (r: Option<Mcasp>)
    requires Shaped(s)
  {
    if PeripheralPort(s) then Some(s)
    else if s.dmaNext >= s.count then Some(s.(xstat := s.xstat + {DMA_ERROR}))
    else if s.writes == U64_MAX then None
    else
      var w := NoteWrite(s, s.dmaNext, v);
      Some(w.(dmaNext := NextTx(w, s.dmaNext + 1)))
  }

  function BufWrite(s: Mcasp, n: nat, v: nat): (r: Option<Mcasp>)
    requires Shaped(s)
  {
    if n >= s.count then None
    else if !PeripheralPort(s) then Some(s)
    else if s.writes == U64_MAX then None
    else Some(NoteWrite(s, n, v))
  }

  function SrctlWrite(s: Mcasp, n: nat, v: nat): (r: Option<Mcasp>)
    requires Shaped(s)
  {
    if n >= s.count || !LegalSrctl(v) then None
    else
      var t := s.(srctl := s.srctl[n := v]);
      Some(if v % 4 == 1 then t
           else Settled(t.(xrdy := t.xrdy - {n}, dmaNext := if t.dmaNext == n then NextTx(t, n + 1) else t.dmaNext)))
  }

  function Bump(generation: nat): nat { if generation == U64_MAX then generation else generation + 1 }

  /** A write to GBLCTL or one of its aliases; `mask` is the bits the alias reaches. */
  function GblctlWrite(s: Mcasp, mask: set<nat>, v: set<nat>): (r: Mcasp)
    requires Shaped(s)
    ensures Shaped(r)
  {
    var next := (s.gblctl - mask) + v * mask;
    var t := s.(gblctl := next, xslot := if XFRST in next then s.xslot else RESET_SLOT);
    var u :=
      if XSRCLR !in next then t.(xrdy := {}, xstat := t.xstat - {XDATA}, dmaNext := t.count)
      else if XSRCLR !in s.gblctl then
        var ready := ActiveTx(t);
        t.(xrdy := ready, dmaNext := NextTx(t, 0),
           xstat := if ready != {} then t.xstat + {XDATA} else t.xstat,
           generation := if ready != {} then Bump(t.generation) else t.generation)
      else t;
    if XSMRST in next && XSMRST !in s.gblctl && u.xrdy != {} then u.(xstat := u.xstat + {UNDERRUN}) else u
  }

  datatype Op =
    | Gblctl(mask: set<nat>, bits: set<nat>)
    | Dma(word: nat)
    | Buf(n: nat, word: nat)
    | Srctl(n: nat, v: nat)
    | Fmt(v: nat)
    | Afsx(v: nat)
    | Dit(v: nat)
    | Tdm(slots: set<nat>)
    | ClearStatus(bits: set<nat>)
    | Slot

  // ------------------------------------------------------------ slot boundary

  predicate AllSlots(xtdm: set<nat>) { forall n | 0 <= n < 32 :: n in xtdm }

  /** The number of slots in a frame, where one is supported. */
  function Slots(s: Mcasp): Option<nat> {
    var mode := s.afsxctl / 0x80;
    if s.ditctl % 2 == 1 then
      if mode != 0x180 || !AllSlots(s.xtdm) then None else Some(0x180)
    else if mode < 2 || mode > 32 then None else Some(mode)
  }

  function NextSlot(xslot: nat, slots: nat): nat { if xslot == RESET_SLOT || xslot + 1 == slots then 0 else xslot + 1 }

  /** Whether a new word waits in a serializer's buffer. */
  predicate Waits(s: Mcasp, n: nat) requires Shaped(s) { IsTx(s, n) && s.bufSequence[n] > s.rsrSource[n] }

  /** The words the boundary moves from serializer `n` on. */
  function Moves(s: Mcasp, n: nat): (r: seq<Shift>)
    requires Shaped(s) && n <= s.count
    decreases s.count - n
  {
    if n == s.count then []
    else (if Waits(s, n) then [Shift(n, s.bufSequence[n], s.xbuf[n])] else []) + Moves(s, n + 1)
  }

  function Transfer(s: Mcasp): (r: Mcasp)
    requires Shaped(s)
    ensures Shaped(r)
  {
    s.(xrsr := seq(s.count, n requires 0 <= n < s.count => if Waits(s, n) then s.xbuf[n] else s.xrsr[n]),
       rsrSource := seq(s.count, n requires 0 <= n < s.count => if Waits(s, n) then s.bufSequence[n] else s.rsrSource[n]),
       xstat := if exists n | 0 <= n < s.count :: IsTx(s, n) && !Waits(s, n) then s.xstat + {UNDERRUN} else s.xstat,
       shifted := s.shifted + Moves(s, 0))
  }

  /** A slot boundary that is accepted, and whether it asks for service. */
  datatype Boundary = Boundary(state: Mcasp, axevt: bool)

  function TxSlot(s: Mcasp): (r: Option<Boundary>)
    requires Shaped(s)
    ensures r.Some? ==> Shaped(r.value.state)
  {
    if !(TX_RUN <= s.gblctl) || ActiveTx(s) == {} || Slots(s).None? then None
    else
      var slots := Slots(s).value;
      if s.xslot != RESET_SLOT && s.xslot >= slots then None
      else
        var next := NextSlot(s.xslot, slots);
        var active := s.ditctl % 2 == 1 || next in s.xtdm;
        if s.boundaries == U64_MAX || (active && s.generation == U64_MAX) then None
        else
          var t := s.(xslot := next, boundaries := s.boundaries + 1);
          if !active then Some(Boundary(t, false))
          else
            var u := Transfer(t);
            Some(Boundary(u.(xrdy := ActiveTx(t), dmaNext := NextTx(t, 0), xstat := u.xstat + {XDATA},
                             generation := u.generation + 1), true))
  }

  /** An operation; one that is refused changes nothing. */
  function Do(s: Mcasp, op: Op): (r: Mcasp)
    requires Shaped(s)
  {
    match op
    case Gblctl(mask, bits) => if bits <= GBL_BITS then GblctlWrite(s, mask, bits) else s
    case Dma(word) => (match DmaWrite(s, word) case None => s case Some(t) => t)
    case Buf(n, word) => (match BufWrite(s, n, word) case None => s case Some(t) => t)
    case Srctl(n, v) => (match SrctlWrite(s, n, v) case None => s case Some(t) => t)
    case Fmt(v) => if LegalFmt(v) then s.(xfmt := v) else s
    case Afsx(v) => if LegalAfsx(v) then s.(afsxctl := v) else s
    case Dit(v) => if LegalDit(v) && (v % 2 == s.ditctl % 2 || XSMRST !in s.gblctl) then s.(ditctl := v) else s
    case Tdm(slots) => s.(xtdm := slots)
    case ClearStatus(bits) => s.(xstat := s.xstat - bits)
    case Slot => (match TxSlot(s) case None => s case Some(b) => b.state)
  }

  // ----------------------------------------------------------------- validity

  lemma SettledValid(s: Mcasp)
    requires Valid(s.(xstat := s.xstat - {XDATA}))
    ensures Valid(Settled(s))
  {
    hide LegalFmt, LegalAfsx, LegalSrctl, LegalDit;
    if s.xrdy * ActiveTx(s) != {} {
      var n :| n in s.xrdy * ActiveTx(s);
    }
  }

  lemma NoteWriteValid(s: Mcasp, n: nat, v: nat)
    requires Valid(s) && n < s.count
    ensures Valid(NoteWrite(s, n, v))
  {
    hide LegalFmt, LegalAfsx, LegalSrctl, LegalDit;
    SettledValid(s.(xbuf := s.xbuf[n := v], bufSequence := s.bufSequence[n := s.writes + 1], writes := s.writes + 1,
                    xrdy := s.xrdy - {n}, accepted := s.accepted + [(n, v)]));
  }

  lemma SrctlValid(s: Mcasp, n: nat, v: nat)
    requires Valid(s) && SrctlWrite(s, n, v).Some?
    ensures Valid(SrctlWrite(s, n, v).value)
  {
    hide LegalFmt, LegalAfsx, LegalDit;
    assert LegalSrctl(v);
    hide LegalSrctl;
    var t := s.(srctl := s.srctl[n := v]);
    assert forall k | k != n :: IsTx(t, k) == IsTx(s, k);
    if v % 4 == 1 {
      assert forall k | k in t.xrdy :: IsTx(t, k);
    } else {
      SettledValid(t.(xrdy := t.xrdy - {n}, dmaNext := if t.dmaNext == n then NextTx(t, n + 1) else t.dmaNext));
    }
  }

  lemma GblctlValid(s: Mcasp, mask: set<nat>, v: set<nat>)
    requires Valid(s)
    ensures Valid(GblctlWrite(s, mask, v))
  {
    var r := GblctlWrite(s, mask, v);
    assert r.srctl == s.srctl && r.count == s.count;
    hide LegalFmt, LegalAfsx, LegalSrctl, LegalDit;
    assert forall n :: IsTx(r, n) == IsTx(s, n);
  }

  lemma TransferValid(s: Mcasp)
    requires Valid(s)
    ensures Valid(Transfer(s))
  {
    hide LegalFmt, LegalAfsx, LegalSrctl, LegalDit, Moves;
    var r := Transfer(s);
    assert forall n :: IsTx(r, n) == IsTx(s, n);
    forall n | 0 <= n < s.count
      ensures r.rsrSource[n] <= r.bufSequence[n] <= r.writes && (r.rsrSource[n] == 0 ==> r.xrsr[n] == 0)
    {
    }
  }

  lemma SlotValid(s: Mcasp)
    requires Valid(s) && TxSlot(s).Some?
    ensures Valid(TxSlot(s).value.state)
  {
    var slots := Slots(s).value;
    assert 2 <= slots <= 0x180;
    var t := s.(xslot := NextSlot(s.xslot, slots), boundaries := s.boundaries + 1);
    assert t.xslot <= RESET_SLOT;
    hide Slots, NextSlot, LegalFmt, LegalAfsx, LegalSrctl, LegalDit;
    assert Valid(t) && ActiveTx(t) == ActiveTx(s);
    TransferValid(t);
    var u := Transfer(t);
    assert forall n :: IsTx(u, n) == IsTx(t, n);
    hide Transfer;
  }

  /** Every write and every slot boundary keeps the registers valid. */
  lemma DoValid(s: Mcasp, op: Op)
    requires Valid(s)
    ensures Valid(Do(s, op))
  {
    match op
    case Gblctl(mask, bits) => GblctlValid(s, mask, bits);
    case Dma(word) =>
      if !PeripheralPort(s) && s.dmaNext < s.count {
        NoteWriteValid(s, s.dmaNext, word);
      }
      hide LegalFmt, LegalAfsx, LegalSrctl, LegalDit, NoteWrite;
    case Buf(n, word) =>
      if n < s.count {
        NoteWriteValid(s, n, word);
      }
      hide Valid, NoteWrite;
    case Srctl(n, v) =>
      if SrctlWrite(s, n, v).Some? {
        SrctlValid(s, n, v);
      }
      hide Valid, SrctlWrite;
    case Slot =>
      if TxSlot(s).Some? {
        SlotValid(s);
      }
      hide Valid, TxSlot;
    case ClearStatus(_) => hide LegalFmt, LegalAfsx, LegalSrctl, LegalDit;
    case Tdm(_) => hide LegalFmt, LegalAfsx, LegalSrctl, LegalDit;
    case Fmt(_) => hide LegalAfsx, LegalSrctl, LegalDit;
    case Afsx(_) => hide LegalFmt, LegalSrctl, LegalDit;
    case Dit(_) => hide LegalFmt, LegalAfsx, LegalSrctl;
  }

  // ---------------------------------------------------- each word at most once

  /** Every buffer and shift register holds a word that was accepted for it, and what was moved was moved in order. */
  ghost predicate Traced(s: Mcasp)
    requires Shaped(s)
  {
    && |s.accepted| == s.writes
    && (forall n | 0 <= n < s.count :: Holds(s, n, s.bufSequence[n], s.xbuf[n]) && Holds(s, n, s.rsrSource[n], s.xrsr[n]))
    && (forall e | e in s.shifted :: e.serializer < s.count && 0 < e.sequence <= s.rsrSource[e.serializer]
                                     && Holds(s, e.serializer, e.sequence, e.word))
    && Rising(s.shifted)
  }

  ghost predicate Holds(s: Mcasp, n: nat, sequence: nat, word: nat) {
    sequence > 0 ==> sequence <= |s.accepted| && s.accepted[sequence - 1] == (n, word)
  }

  /** Sequence numbers strictly increase at each serializer. */
  ghost predicate Rising(es: seq<Shift>) {
    forall i, j | 0 <= i < j < |es| && es[i].serializer == es[j].serializer :: es[i].sequence < es[j].sequence
  }

  /** A move of a word that waits at a serializer from `n` on. */
  ghost predicate IsMove(s: Mcasp, n: nat, e: Shift)
    requires Shaped(s)
  {
    && n <= e.serializer < s.count && Waits(s, e.serializer)
    && e.sequence == s.bufSequence[e.serializer] && e.word == s.xbuf[e.serializer]
  }

  lemma {:induction false} MovesAre(s: Mcasp, n: nat)
    requires Shaped(s) && n <= s.count
    ensures forall i | 0 <= i < |Moves(s, n)| :: IsMove(s, n, Moves(s, n)[i])
    ensures forall i, j | 0 <= i < j < |Moves(s, n)| :: Moves(s, n)[i].serializer < Moves(s, n)[j].serializer
    decreases s.count - n
  {
    if n < s.count {
      MovesAre(s, n + 1);
      var rest, all := Moves(s, n + 1), Moves(s, n);
      var here := if Waits(s, n) then [Shift(n, s.bufSequence[n], s.xbuf[n])] else [];
      assert all == here + rest;
      assert Waits(s, n) ==> IsMove(s, n, here[0]);
      hide Moves, Waits;
      forall i | 0 <= i < |all| ensures IsMove(s, n, all[i]) {
        assert i >= |here| ==> all[i] == rest[i - |here|] && IsMove(s, n + 1, rest[i - |here|]);
      }
      forall i, j | 0 <= i < j < |all| ensures all[i].serializer < all[j].serializer {
        assert all[j] == rest[j - |here|] && IsMove(s, n + 1, rest[j - |here|]);
        assert i >= |here| ==> all[i] == rest[i - |here|];
      }
    }
  }

  lemma RisingOn(es: seq<Shift>, more: seq<Shift>, source: seq<nat>)
    requires Rising(es) && (forall e | e in es + more :: e.serializer < |source|)
    requires forall e | e in es :: e.sequence <= source[e.serializer]
    requires forall e | e in more :: e.sequence > source[e.serializer]
    requires forall i, j | 0 <= i < j < |more| :: more[i].serializer < more[j].serializer
    ensures Rising(es + more)
  {
    var r := es + more;
    forall i, j | 0 <= i < j < |r| ensures r[i].serializer == r[j].serializer ==> r[i].sequence < r[j].sequence {
      if j >= |es| {
        var b := more[j - |es|];
        assert r[j] == b && b in more;
        if i < |es| {
          assert r[i] == es[i] && es[i] in es;
        }
      }
    }
  }

  lemma TransferTraced(s: Mcasp)
    requires Valid(s) && Traced(s)
    ensures Traced(Transfer(s))
  {
    assert Shaped(s);
    hide *;
    TransferHolds(s);
    TransferRises(s);
    TransferShifts(s, Transfer(s), Moves(s, 0));
    TracedFrom(s);
  }

  /** The words moved are words that waited. */
  lemma TransferRises(s: Mcasp)
    requires Valid(s) && Traced(s)
    ensures Shaped(Transfer(s)) && Transfer(s).count == s.count && Transfer(s).shifted == s.shifted + Moves(s, 0)
    ensures Rising(Transfer(s).shifted)
    ensures forall e | e in Moves(s, 0) :: e.serializer < s.count && Waits(s, e.serializer) && e.word == s.xbuf[e.serializer]
                                           && 0 < e.sequence == s.bufSequence[e.serializer]
  {
    var more := Moves(s, 0);
    MovesAre(s, 0);
    assert forall e | e in more :: IsMove(s, 0, e);
    assert forall e | e in s.shifted + more :: e in s.shifted || e in more;
    assert forall e | e in s.shifted :: e.serializer < s.count && e.sequence <= s.rsrSource[e.serializer];
    hide Valid, Moves, Rising, Holds;
    RisingOn(s.shifted, more, s.rsrSource);
  }

  lemma TracedFrom(s: Mcasp)
    requires Shaped(s) && Traced(s) && Shaped(Transfer(s)) && Rising(Transfer(s).shifted)
    requires var r := Transfer(s);
             && (forall n | 0 <= n < s.count :: Holds(r, n, r.bufSequence[n], r.xbuf[n]) && Holds(r, n, r.rsrSource[n], r.xrsr[n]))
             && forall e | e in r.shifted :: e.serializer < r.count && 0 < e.sequence <= r.rsrSource[e.serializer]
                                             && Holds(r, e.serializer, e.sequence, e.word)
    ensures Traced(Transfer(s))
  {
    assert Transfer(s).accepted == s.accepted && Transfer(s).writes == s.writes && Transfer(s).count == s.count;
    hide Holds, Rising, Transfer;
  }

  /** What the shift registers hold after a transfer, and that all that was held still is. */
  lemma TransferHolds(s: Mcasp)
    requires Valid(s) && Traced(s)
    ensures var r := Transfer(s);
            && (forall n, q, w | Holds(s, n, q, w) :: Holds(r, n, q, w))
            && forall n | 0 <= n < s.count ::
                 && s.rsrSource[n] <= r.rsrSource[n] && (Waits(s, n) ==> r.rsrSource[n] == s.bufSequence[n])
                 && Holds(r, n, r.bufSequence[n], r.xbuf[n]) && Holds(r, n, r.rsrSource[n], r.xrsr[n])
  {
    var r := Transfer(s);
    hide Moves, Rising;
    forall n, q, w | Holds(s, n, q, w) ensures Holds(r, n, q, w) {
    }
    forall n | 0 <= n < s.count
      ensures s.rsrSource[n] <= r.rsrSource[n] && (Waits(s, n) ==> r.rsrSource[n] == s.bufSequence[n])
      ensures Holds(r, n, r.bufSequence[n], r.xbuf[n]) && Holds(r, n, r.rsrSource[n], r.xrsr[n])
    {
      assert Holds(s, n, s.bufSequence[n], s.xbuf[n]) && Holds(s, n, s.rsrSource[n], s.xrsr[n]);
    }
  }

  lemma TransferShifts(s: Mcasp, r: Mcasp, more: seq<Shift>)
    requires Shaped(s) && Shaped(r) && r.count == s.count && Traced(s) && r.shifted == s.shifted + more
    requires forall n, q, w | Holds(s, n, q, w) :: Holds(r, n, q, w)
    requires forall n | 0 <= n < s.count :: s.rsrSource[n] <= r.rsrSource[n]
    requires forall e | e in more :: e.serializer < s.count && 0 < e.sequence == s.bufSequence[e.serializer] <= r.rsrSource[e.serializer]
                                     && e.word == s.xbuf[e.serializer]
    ensures forall e | e in r.shifted :: e.serializer < r.count && 0 < e.sequence <= r.rsrSource[e.serializer]
                                         && Holds(r, e.serializer, e.sequence, e.word)
  {
    hide Holds, Rising;
    forall e | e in r.shifted
      ensures e.serializer < r.count && 0 < e.sequence <= r.rsrSource[e.serializer] && Holds(r, e.serializer, e.sequence, e.word)
    {
      if e in more {
        assert Holds(s, e.serializer, s.bufSequence[e.serializer], s.xbuf[e.serializer]);
      } else {
        assert e in s.shifted && Holds(s, e.serializer, e.sequence, e.word);
      }
    }
  }

  /** What tracing looks at is the words and their history. */
  lemma SameTrace(s: Mcasp, t: Mcasp)
    requires Shaped(s) && Shaped(t) && Traced(s) && t.count == s.count && t.writes == s.writes && t.accepted == s.accepted
    requires t.xbuf == s.xbuf && t.bufSequence == s.bufSequence && t.xrsr == s.xrsr && t.rsrSource == s.rsrSource
    requires t.shifted == s.shifted
    ensures Traced(t)
  {
    forall n, q, w | Holds(s, n, q, w) ensures Holds(t, n, q, w) {
    }
    hide Holds;
  }

  lemma NoteWriteTraced(s: Mcasp, n: nat, v: nat)
    requires Valid(s) && Traced(s) && n < s.count
    ensures Traced(NoteWrite(s, n, v))
  {
    var r := NoteWrite(s, n, v);
    forall k: nat, q: nat, w: nat | Holds(s, k, q, w) ensures Holds(r, k, q, w) {
    }
    assert Holds(r, n, s.writes + 1, v);
    hide Settled, Valid, Holds;
  }

  /** Each accepted word reaches its shift register at most once, and later words follow earlier ones. */
  lemma DoTraced(s: Mcasp, op: Op)
    requires Valid(s) && Traced(s)
    ensures Shaped(Do(s, op)) && Traced(Do(s, op))
  {
    hide *;
    ValidShaped(s);
    DoValid(s, op);
    ValidShaped(Do(s, op));
    match op
    case Dma(word) => DmaTraced(s, word);
    case Buf(n, word) => BufTraced(s, n, word);
    case Slot => BoundaryTraced(s);
    case _ =>
      RegisterOps(s, op);
      SameTrace(s, Do(s, op));
  }

  lemma ValidShaped(s: Mcasp)
    requires Valid(s)
    ensures Shaped(s)
  {
  }

  lemma BufTraced(s: Mcasp, n: nat, word: nat)
    requires Valid(s) && Traced(s)
    ensures Shaped(s) && Shaped(Do(s, Buf(n, word))) && Traced(Do(s, Buf(n, word)))
  {
    ValidShaped(s);
    if n < s.count {
      NoteWriteTraced(s, n, word);
    }
    hide NoteWrite, Traced, Valid;
  }

  lemma BoundaryTraced(s: Mcasp)
    requires Valid(s) && Traced(s)
    ensures Shaped(s) && Shaped(Do(s, Slot)) && Traced(Do(s, Slot))
  {
    hide *;
    ValidShaped(s);
    SlotDone(s);
    if TxSlot(s).Some? {
      SlotTraced(s);
    }
  }

  lemma SlotDone(s: Mcasp)
    requires Shaped(s)
    ensures Do(s, Slot) == if TxSlot(s).Some? then TxSlot(s).value.state else s
    ensures Shaped(Do(s, Slot))
  {
    hide TxSlot;
  }

  lemma DmaTraced(s: Mcasp, word: nat)
    requires Valid(s) && Traced(s)
    ensures Shaped(Do(s, Dma(word))) && Traced(Do(s, Dma(word)))
  {
    assert Shaped(s);
    hide Traced, Valid, NoteWrite;
    if DmaWrite(s, word).Some? {
      if !PeripheralPort(s) && s.dmaNext < s.count {
        NoteWriteTraced(s, s.dmaNext, word);
        SameTrace(NoteWrite(s, s.dmaNext, word), DmaWrite(s, word).value);
      } else {
        SameTrace(s, DmaWrite(s, word).value);
      }
    }
  }

  /** Register writes touch no word and no history. */
  lemma RegisterOps(s: Mcasp, op: Op)
    requires Shaped(s) && !op.Dma? && !op.Buf? && !op.Slot?
    ensures var t := Do(s, op);
            && Shaped(t) && t.count == s.count && t.writes == s.writes && t.accepted == s.accepted && t.shifted == s.shifted
            && t.xbuf == s.xbuf && t.bufSequence == s.bufSequence && t.xrsr == s.xrsr && t.rsrSource == s.rsrSource
  {
    hide NextTx, ActiveTx;
  }

  lemma SlotTraced(s: Mcasp)
    requires Valid(s) && Traced(s) && TxSlot(s).Some?
    ensures Traced(TxSlot(s).value.state)
  {
    var t := s.(xslot := TxSlot(s).value.state.xslot, boundaries := s.boundaries + 1);
    SlotCounts(s);
    assert Valid(t) by { hide LegalFmt, LegalAfsx, LegalSrctl, LegalDit; }
    hide Valid, Traced, Transfer, Slots, NextSlot;
    SameTrace(s, t);
    TransferTraced(t);
    if TxSlot(s).value.axevt {
      SameTrace(Transfer(t), TxSlot(s).value.state);
    }
  }

  lemma SlotCounts(s: Mcasp)
    requires Valid(s) && TxSlot(s).Some?
    ensures TxSlot(s).value.state.xslot <= RESET_SLOT
  {
  }

  lemma ResetTraced(count: nat)
    requires 0 < count <= 16
    ensures Valid(Reset(count)) && Traced(Reset(count))
  {
  }

  function Play(count: nat, ops: seq<Op>): (r: Mcasp)
    requires 0 < count <= 16
    ensures Valid(r)
    decreases |ops|
  {
    if ops == [] then
      ResetTraced(count);
      Reset(count)
    else
      DoValid(Play(count, ops[..|ops| - 1]), ops[|ops| - 1]);
      Do(Play(count, ops[..|ops| - 1]), ops[|ops| - 1])
  }

  lemma {:induction false} RunTraced(count: nat, ops: seq<Op>)
    requires 0 < count <= 16
    ensures Traced(Play(count, ops))
    decreases |ops|
  {
    if ops == [] {
      ResetTraced(count);
    } else {
      RunTraced(count, ops[..|ops| - 1]);
      hide Traced, Valid, Do;
      DoTraced(Play(count, ops[..|ops| - 1]), ops[|ops| - 1]);
    }
  }

  /** Over any run, two words moved on are two different accepted words. */
  lemma NoWordTwice(count: nat, ops: seq<Op>, i: nat, j: nat)
    requires 0 < count <= 16 && i < j < |Play(count, ops).shifted|
    ensures var s := Play(count, ops);
            && s.shifted[i].sequence != s.shifted[j].sequence
            && 0 < s.shifted[i].sequence <= |s.accepted|
            && s.accepted[s.shifted[i].sequence - 1] == (s.shifted[i].serializer, s.shifted[i].word)
  {
    RunTraced(count, ops);
    hide Play, Valid;
    Different(Play(count, ops), i, j);
  }

  lemma Different(s: Mcasp, i: nat, j: nat)
    requires Shaped(s) && Traced(s) && i < j < |s.shifted|
    ensures s.shifted[i].sequence != s.shifted[j].sequence && 0 < s.shifted[i].sequence <= |s.accepted|
    ensures s.accepted[s.shifted[i].sequence - 1] == (s.shifted[i].serializer, s.shifted[i].word)
  {
    assert s.shifted[i] in s.shifted && s.shifted[j] in s.shifted;
  }

  // -------------------------------------------------------------- the DMA port

  /** The transmit serializers from `after` on, in increasing order. */
  function Order(s: Mcasp, after: nat): (r: seq<nat>)
    requires Shaped(s)
    decreases s.count - after
  {
    var n := NextTx(s, after);
    if n < s.count then [n] + Order(s, n + 1) else []
  }

  lemma {:induction false} OrderHas(s: Mcasp, after: nat, k: nat)
    requires Shaped(s)
    ensures k in Order(s, after) <==> after <= k && IsTx(s, k)
    decreases s.count - after
  {
    var n := NextTx(s, after);
    if n < s.count {
      OrderHas(s, n + 1, k);
      hide NextTx;
    } else {
      assert IsTx(s, k) ==> k < s.count;
    }
  }

  lemma {:induction false} SameNext(s: Mcasp, t: Mcasp, after: nat)
    requires Shaped(s) && Shaped(t) && s.srctl == t.srctl
    ensures NextTx(s, after) == NextTx(t, after)
    decreases s.count - after
  {
    if after < s.count {
      SameNext(s, t, after + 1);
    }
  }

  lemma {:induction false} SameOrder(s: Mcasp, t: Mcasp, after: nat)
    requires Shaped(s) && Shaped(t) && s.srctl == t.srctl
    ensures Order(s, after) == Order(t, after) && NextTx(s, after) == NextTx(t, after)
    decreases s.count - after
  {
    SameNext(s, t, after);
    hide IsTx;
    if NextTx(s, after) < s.count {
      SameOrder(s, t, NextTx(s, after) + 1);
    }
  }

  function DmaAll(s: Mcasp, words: seq<nat>): (r: Mcasp)
    requires Shaped(s)
    ensures Shaped(r)
    decreases |words|
  {
    if words == [] then s else DmaAll(Do(s, Dma(words[0])), words[1..])
  }

  function Pairs(ns: seq<nat>, words: seq<nat>): (r: seq<(nat, nat)>)
    requires |ns| == |words|
    ensures |r| == |ns|
  {
    seq(|ns|, i requires 0 <= i < |ns| => (ns[i], words[i]))
  }

  /** The serializers from `after` on wait for a word, and the port stands at the first of them. */
  ghost predicate Waiting(s: Mcasp, after: nat)
    requires Shaped(s)
  {
    && !PeripheralPort(s) && s.dmaNext == NextTx(s, after)
    && (forall n :: n in s.xrdy <==> after <= n && IsTx(s, n))
    && (Order(s, after) != [] ==> XDATA in s.xstat)
  }

  /** What one write through the port does while it has a serializer to fill. */
  lemma DmaEffect(s: Mcasp, word: nat)
    requires Shaped(s) && !PeripheralPort(s) && s.dmaNext < s.count && s.writes < U64_MAX
    ensures var r, ready := Do(s, Dma(word)), s.xrdy - {s.dmaNext};
            && Shaped(r) && r.count == s.count && r.srctl == s.srctl && r.xfmt == s.xfmt && r.writes == s.writes + 1
            && r.accepted == s.accepted + [(s.dmaNext, word)] && r.xrdy == ready && r.dmaNext == NextTx(s, s.dmaNext + 1)
            && r.xstat == if ready * ActiveTx(s) == {} then s.xstat - {XDATA} else s.xstat
  {
    var w := NoteWrite(s, s.dmaNext, word);
    assert ActiveTx(w) == ActiveTx(s);
    SameOrder(s, w, s.dmaNext + 1);
    hide NextTx, Order, IsTx;
  }

  lemma WaitingNext(s: Mcasp, after: nat, word: nat)
    requires Shaped(s) && Waiting(s, after) && Order(s, after) != [] && s.writes < U64_MAX
    ensures var r, n := Do(s, Dma(word)), Order(s, after)[0];
            && r.count == s.count && Waiting(r, n + 1) && Order(s, after) == [n] + Order(r, n + 1)
            && r.accepted == s.accepted + [(n, word)] && r.writes == s.writes + 1
            && (Order(r, n + 1) == [] ==> XDATA !in r.xstat)
  {
    hide *;
    OrderFirst(s, after);
    DmaEffect(s, word);
    WaitingFrom(s, Do(s, Dma(word)), after);
  }

  /** The serializer the port stands at is the first that waits. */
  lemma OrderFirst(s: Mcasp, after: nat)
    requires Shaped(s) && Waiting(s, after) && Order(s, after) != []
    ensures var n := Order(s, after)[0];
            n == s.dmaNext < s.count && Order(s, after) == [n] + Order(s, n + 1) && XDATA in s.xstat && !PeripheralPort(s)
  {
    hide NextTx, IsTx;
  }

  lemma WaitingFrom(s: Mcasp, r: Mcasp, after: nat)
    requires Shaped(s) && Shaped(r) && r.count == s.count && r.srctl == s.srctl && r.xfmt == s.xfmt
    requires Waiting(s, after) && s.dmaNext < s.count && XDATA in s.xstat
    requires var ready := s.xrdy - {s.dmaNext};
             && r.xrdy == ready && r.dmaNext == NextTx(s, s.dmaNext + 1)
             && r.xstat == if ready * ActiveTx(s) == {} then s.xstat - {XDATA} else s.xstat
    ensures Waiting(r, s.dmaNext + 1) && Order(r, s.dmaNext + 1) == Order(s, s.dmaNext + 1)
    ensures Order(r, s.dmaNext + 1) == [] ==> XDATA !in r.xstat
  {
    hide Order;
    SameOrder(s, r, s.dmaNext + 1);
    assert forall k :: IsTx(s, k) == IsTx(r, k);
    ReadyAfter(s, after, s.dmaNext);
    hide NextTx, ActiveTx, IsTx;
  }

  /** Once the first waiting serializer is filled, the ones that wait are those after it. */
  lemma ReadyAfter(s: Mcasp, after: nat, n: nat)
    requires Shaped(s) && (forall k :: k in s.xrdy <==> after <= k && IsTx(s, k)) && after <= n && IsTx(s, n)
    requires forall k | after <= k < n :: !IsTx(s, k)
    ensures forall k :: k in s.xrdy - {n} <==> n + 1 <= k && IsTx(s, k)
    ensures Order(s, n + 1) == [] <==> (s.xrdy - {n}) * ActiveTx(s) == {}
  {
    hide IsTx;
    var ready, rest := s.xrdy - {n}, Order(s, n + 1);
    hide Order;
    if rest == [] {
      forall k ensures k !in ready {
        OrderHas(s, n + 1, k);
      }
    } else {
      OrderHas(s, n + 1, rest[0]);
      assert rest[0] in rest && rest[0] in ready * ActiveTx(s);
    }
  }

  /** What `words` written to serializers in `order` leave. */
  ghost predicate Filled(s: Mcasp, r: Mcasp, order: seq<nat>, words: seq<nat>)
    requires |words| <= |order|
  {
    && r.accepted == s.accepted + Pairs(order[..|words|], words)
    && r.dmaNext == (if |words| < |order| then order[|words|] else s.count)
    && (order != [] ==> (XDATA in r.xstat <==> |words| < |order|))
  }

  lemma FilledNone(s: Mcasp, after: nat)
    requires Shaped(s) && Waiting(s, after)
    ensures Filled(s, s, Order(s, after), [])
  {
    hide NextTx, ActiveTx, IsTx, Shaped;
    assert s.accepted + Pairs([], []) == s.accepted;
  }

  lemma FilledOn(s: Mcasp, t: Mcasp, r: Mcasp, rest: seq<nat>, n: nat, words: seq<nat>)
    requires words != [] && |words| <= |rest| + 1 && t.count == s.count && t.accepted == s.accepted + [(n, words[0])]
    requires Filled(t, r, rest, words[1..])
    requires rest == [] ==> XDATA !in t.xstat && (words[1..] == [] ==> r == t)
    ensures Filled(s, r, [n] + rest, words)
  {
    var order := [n] + rest;
    assert Pairs(order[..|words|], words) == [(n, words[0])] + Pairs(rest[..|words| - 1], words[1..]);
  }

  /**
   Writes through the DMA port fill the active serializers once each, in increasing order;
   the service event goes down with the last of them.
   */
  lemma {:induction false} DmaFills(s: Mcasp, after: nat, words: seq<nat>)
    requires Shaped(s) && Waiting(s, after) && |words| <= |Order(s, after)| && s.writes + |words| <= U64_MAX
    ensures Filled(s, DmaAll(s, words), Order(s, after), words)
    decreases |words|
  {
    hide *;
    DmaAllNone(s);
    if words == [] {
      FilledNone(s, after);
    } else {
      var t, n := Do(s, Dma(words[0])), Order(s, after)[0];
      WaitingNext(s, after, words[0]);
      DmaAllFirst(s, words);
      DmaAllNone(t);
      DmaFills(t, n + 1, words[1..]);
      FilledOn(s, t, DmaAll(s, words), Order(t, n + 1), n, words);
    }
  }

  lemma DmaAllNone(s: Mcasp)
    requires Shaped(s)
    ensures DmaAll(s, []) == s
  {
  }

  lemma DmaAllFirst(s: Mcasp, words: seq<nat>)
    requires Shaped(s) && words != []
    ensures Shaped(Do(s, Dma(words[0]))) && DmaAll(s, words) == DmaAll(Do(s, Dma(words[0])), words[1..])
  {
    DmaShaped(s, words[0]);
    hide Do;
  }

  lemma DmaShaped(s: Mcasp, word: nat)
    requires Shaped(s)
    ensures Shaped(Do(s, Dma(word)))
  {
    hide NextTx, ActiveTx;
  }

  /** One write more than there are active serializers only sets an error. */
  lemma OneTooMany(s: Mcasp, word: nat)
    requires Shaped(s) && !PeripheralPort(s) && s.dmaNext == s.count
    ensures Do(s, Dma(word)) == s.(xstat := s.xstat + {DMA_ERROR})
  {
  }

  lemma {:induction false} AllTooMany(s: Mcasp, words: seq<nat>)
    requires Shaped(s) && !PeripheralPort(s) && s.dmaNext == s.count
    ensures DmaAll(s, words) == if words == [] then s else s.(xstat := s.xstat + {DMA_ERROR})
    decreases |words|
  {
    if words != [] {
      OneTooMany(s, words[0]);
      AllTooMany(Do(s, Dma(words[0])), words[1..]);
    }
  }

  lemma {:induction false} DmaConcat(s: Mcasp, a: seq<nat>, b: seq<nat>)
    requires Shaped(s)
    ensures DmaAll(s, a + b) == DmaAll(DmaAll(s, a), b)
    decreases |a|
  {
    if a == [] {
      assert a + b == b;
    } else {
      assert (a + b)[0] == a[0] && (a + b)[1..] == a[1..] + b;
      hide Do;
      DmaConcat(Do(s, Dma(a[0])), a[1..], b);
    }
  }

  lemma {:induction false} DmaKeepsPort(s: Mcasp, words: seq<nat>)
    requires Shaped(s)
    ensures DmaAll(s, words).count == s.count && PeripheralPort(DmaAll(s, words)) == PeripheralPort(s)
    decreases |words|
  {
    if words != [] {
      DmaKeepsPort(Do(s, Dma(words[0])), words[1..]);
      hide NextTx, ActiveTx;
    }
  }

  /** However many words too many: the first fill the serializers as ever, and the rest only set the DMA error. */
  lemma ExcessOnlyErrs(s: Mcasp, after: nat, words: seq<nat>)
    requires Shaped(s) && Waiting(s, after) && |words| > |Order(s, after)| && s.writes + |Order(s, after)| <= U64_MAX
    ensures var order := Order(s, after);
            var filled := DmaAll(s, words[..|order|]);
            && Filled(s, filled, order, words[..|order|])
            && DmaAll(s, words) == filled.(xstat := filled.xstat + {DMA_ERROR})
  {
    hide *;
    var order := Order(s, after);
    var first, rest := words[..|order|], words[|order|..];
    assert words == first + rest;
    DmaFills(s, after, first);
    DmaConcat(s, first, rest);
    DmaKeepsPort(s, first);
    FilledUp(s, after, DmaAll(s, first), first);
    AllTooMany(DmaAll(s, first), rest);
  }

  lemma FilledUp(s: Mcasp, after: nat, r: Mcasp, words: seq<nat>)
    requires Shaped(s) && Waiting(s, after) && |words| == |Order(s, after)| && Filled(s, r, Order(s, after), words)
    ensures r.dmaNext == s.count && !PeripheralPort(s)
  {
    hide Order, Pairs, NextTx, IsTx, Shaped;
  }

  /** A slot boundary that is taken leaves every active serializer waiting, so what follows fills them all afresh. */
  lemma SlotWaits(s: Mcasp)
    requires Valid(s) && TxSlot(s).Some? && TxSlot(s).value.axevt && !PeripheralPort(s)
    ensures Waiting(TxSlot(s).value.state, 0) && Order(TxSlot(s).value.state, 0) != []
  {
    var r := TxSlot(s).value.state;
    assert r.srctl == s.srctl && r.count == s.count;
    assert forall n :: IsTx(r, n) == IsTx(s, n);
    var t := s.(xslot := r.xslot, boundaries := r.boundaries);
    SameOrder(t, r, 0);
    var n :| n in ActiveTx(s);
    OrderHas(r, 0, n);
    hide Valid, Transfer;
  }

  // ------------------------------------------------------------- the slot cycle

  /** One operation after another. */
  function DoAll(s: Mcasp, ops: seq<Op>): (r: Mcasp)
    requires Shaped(s)
    ensures Shaped(r)
    decreases |ops|
  {
    if ops == [] then s
    else
      DoShaped(DoAll(s, ops[..|ops| - 1]), ops[|ops| - 1]);
      Do(DoAll(s, ops[..|ops| - 1]), ops[|ops| - 1])
  }

  lemma DoShaped(s: Mcasp, op: Op)
    requires Shaped(s)
    ensures Shaped(Do(s, op))
  {
    hide NextTx, ActiveTx;
  }

  /** An operation that keeps the frame mode, and does not put the frame state machine in reset. */
  predicate KeepsFrame(s: Mcasp, op: Op)
    requires Shaped(s)
  {
    Slots(Do(s, op)) == Slots(s) && (op.Gblctl? ==> Do(s, op) == s || XFRST in Do(s, op).gblctl)
  }

  ghost predicate AllKeepFrame(s: Mcasp, ops: seq<Op>)
    requires Shaped(s)
    decreases |ops|
  {
    ops == [] || (AllKeepFrame(s, ops[..|ops| - 1]) && KeepsFrame(DoAll(s, ops[..|ops| - 1]), ops[|ops| - 1]))
  }

  /** Buffer, serializer, format and status writes and slot boundaries all do. */
  lemma DataKeepsFrame(s: Mcasp, op: Op)
    requires Shaped(s) && (op.Dma? || op.Buf? || op.Srctl? || op.Fmt? || op.ClearStatus? || op.Slot?)
    ensures KeepsFrame(s, op)
  {
    if op.Slot? && TxSlot(s).Some? {
      SlotStep(s);
      hide TxSlot;
    }
    hide NextTx, ActiveTx, AllSlots;
  }

  /** What an operation that keeps the frame does to the slot counter. */
  lemma SlotOrNot(s: Mcasp, op: Op)
    requires Shaped(s) && KeepsFrame(s, op)
    ensures var r := Do(s, op);
            if op.Slot? && TxSlot(s).Some? then
              r.boundaries == s.boundaries + 1 && Slots(s).Some? && r.xslot == NextSlot(s.xslot, Slots(s).value)
              && 2 <= Slots(s).value <= 0x180
            else r.boundaries == s.boundaries && r.xslot == s.xslot
  {
    if op.Slot? && TxSlot(s).Some? {
      SlotStep(s);
      hide TxSlot;
    }
    hide NextTx, ActiveTx, Slots;
  }

  lemma SlotStep(s: Mcasp)
    requires Shaped(s) && TxSlot(s).Some?
    ensures var r := TxSlot(s).value.state;
            && Slots(s).Some? && Slots(r) == Slots(s) && r.xslot == NextSlot(s.xslot, Slots(s).value)
            && r.boundaries == s.boundaries + 1 && 2 <= Slots(s).value <= 0x180
  {
    hide Transfer;
    var t := s.(xslot := NextSlot(s.xslot, Slots(s).value), boundaries := s.boundaries + 1);
    assert Slots(t) == Slots(s);
    assert Transfer(t).xslot == t.xslot && Slots(Transfer(t)) == Slots(t) && Transfer(t).boundaries == t.boundaries by {
      TransferFrame(t);
    }
  }

  lemma TransferFrame(s: Mcasp)
    requires Shaped(s)
    ensures var r := Transfer(s);
            && r.srctl == s.srctl && r.xslot == s.xslot && r.ditctl == s.ditctl && r.afsxctl == s.afsxctl && r.xtdm == s.xtdm
            && r.boundaries == s.boundaries
  {
  }

  /**
   With the frame mode fixed, and whatever is written between the boundaries, after `n` accepted
   boundaries from reset the counter stands at slot (n - 1) mod slots: 0, 1, ..., and round again.
   A boundary that is refused does not count.
   */
  lemma {:induction false} SlotsCycle(s: Mcasp, ops: seq<Op>)
    requires Shaped(s) && s.xslot == RESET_SLOT && AllKeepFrame(s, ops)
    ensures var r := DoAll(s, ops);
            && s.boundaries <= r.boundaries && Slots(r) == Slots(s)
            && if r.boundaries == s.boundaries then r.xslot == RESET_SLOT
               else Slots(s).Some? && 2 <= Slots(s).value <= 0x180 && r.xslot == (r.boundaries - s.boundaries - 1) % Slots(s).value
    decreases |ops|
  {
    hide Slots, TxSlot, Do, NextSlot, Shaped, KeepsFrame;
    if ops != [] {
      var t, op := DoAll(s, ops[..|ops| - 1]), ops[|ops| - 1];
      SlotsCycle(s, ops[..|ops| - 1]);
      SlotOrNot(t, op);
      assert Slots(Do(t, op)) == Slots(t) by { FrameKept(t, op); }
      if op.Slot? && TxSlot(t).Some? {
        FirstOrNext(t.boundaries - s.boundaries, Slots(s).value, t.xslot);
      }
    }
  }

  lemma FrameKept(s: Mcasp, op: Op)
    requires Shaped(s) && KeepsFrame(s, op)
    ensures Slots(Do(s, op)) == Slots(s)
  {
    hide Slots, Do, Shaped;
  }

  lemma FirstOrNext(n: nat, slots: nat, xslot: nat)
    requires 2 <= slots <= 0x180 && xslot == if n == 0 then RESET_SLOT else (n - 1) % slots
    ensures NextSlot(xslot, slots) == n % slots
  {
    if n == 0 {
      DivUnique(0, slots, 0, 0);
    } else {
      CycleNext(n - 1, slots);
    }
  }

  lemma CycleNext(n: nat, slots: nat)
    requires 2 <= slots <= 0x180
    ensures NextSlot(n % slots, slots) == (n + 1) % slots
  {
    var q, r := n / slots, n % slots;
    assert n == q * slots + r && (q + 1) * slots == q * slots + slots;
    if r + 1 == slots {
      DivUnique(n + 1, slots, q + 1, 0);
    } else {
      DivUnique(n + 1, slots, q, r + 1);
    }
  }

  // -------------------------------------------------- the instance in place

  /** A boundary whose transfer has got as far as serializer `n`. */
  ghost predicate PartWay(s: Mcasp, t: Mcasp, n: nat, underrun: bool)
    requires Shaped(s) && n <= s.count
  {
    && t == s.(xrsr := t.xrsr, rsrSource := t.rsrSource, shifted := t.shifted)
    && |t.xrsr| == |t.rsrSource| == s.count
    && (forall k | 0 <= k < s.count ::
          t.xrsr[k] == (if k < n && Waits(s, k) then s.xbuf[k] else s.xrsr[k])
          && t.rsrSource[k] == (if k < n && Waits(s, k) then s.bufSequence[k] else s.rsrSource[k]))
    && t.shifted + Moves(s, n) == s.shifted + Moves(s, 0)
    && (underrun <==> exists k | 0 <= k < n :: IsTx(s, k) && !Waits(s, k))
  }

  lemma PartWayOn(s: Mcasp, t: Mcasp, n: nat, underrun: bool)
    requires Shaped(s) && n < s.count && PartWay(s, t, n, underrun)
    ensures !IsTx(s, n) ==> PartWay(s, t, n + 1, underrun)
    ensures IsTx(s, n) && !Waits(s, n) ==> PartWay(s, t, n + 1, true)
    ensures Waits(s, n) ==>
              PartWay(s, t.(xrsr := t.xrsr[n := s.xbuf[n]], rsrSource := t.rsrSource[n := s.bufSequence[n]],
                            shifted := t.shifted + [Shift(n, s.bufSequence[n], s.xbuf[n])]), n + 1, underrun)
  {
    if Waits(s, n) {
      var e := Shift(n, s.bufSequence[n], s.xbuf[n]);
      assert t.shifted + ([e] + Moves(s, n + 1)) == t.shifted + [e] + Moves(s, n + 1);
    }
  }

  lemma PartWayDone(s: Mcasp, t: Mcasp, underrun: bool)
    requires Shaped(s) && PartWay(s, t, s.count, underrun)
    ensures Transfer(s) == if underrun then t.(xstat := t.xstat + {UNDERRUN}) else t
  {
    hide IsTx;
    var r := Transfer(s);
    assert t.shifted + [] == t.shifted;
    assert r.xrsr == t.xrsr && r.rsrSource == t.rsrSource && r.shifted == t.shifted;
  }

  class Machine {
    var regs: Mcasp

    /** Move every waiting word on, serializer by serializer. */
    method MoveAll()
      requires Shaped(regs)
      modifies this
      ensures regs == Transfer(old(regs))
    {
      ghost var s := regs;
      var underrun := false;
      assert PartWay(s, regs, 0, false);
      hide PartWay;
      for n := 0 to regs.count
        invariant regs.count == s.count && Shaped(regs) && regs.srctl == s.srctl && regs.xbuf == s.xbuf
        invariant regs.bufSequence == s.bufSequence && forall k | n <= k < s.count :: regs.rsrSource[k] == s.rsrSource[k]
        invariant PartWay(s, regs, n, underrun)
      {
        PartWayOn(s, regs, n, underrun);
        if regs.srctl[n] % 4 == 1 {
          if regs.bufSequence[n] > regs.rsrSource[n] {
            var e := Shift(n, regs.bufSequence[n], regs.xbuf[n]);
            regs := regs.(xrsr := regs.xrsr[n := regs.xbuf[n]], rsrSource := regs.rsrSource[n := regs.bufSequence[n]],
                          shifted := regs.shifted + [e]);
          } else {
            underrun := true;
          }
        }
      }
      PartWayDone(s, regs, underrun);
      if underrun {
        regs := regs.(xstat := regs.xstat + {UNDERRUN});
      }
    }

    /** One caller-timed slot boundary; a refusal changes nothing. */
    method Boundary() returns (axevt: Option<bool>)
      requires Shaped(regs)
      modifies this
      ensures axevt == match TxSlot(old(regs)) case None => None case Some(b) => Some(b.axevt)
      ensures regs == match TxSlot(old(regs)) case None => old(regs) case Some(b) => b.state
    {
      hide Transfer;
      var serializers := ActiveTx(regs);
      if !(TX_RUN <= regs.gblctl) || serializers == {} || Slots(regs).None? {
        return None;
      }
      var slots := Slots(regs).value;
      if regs.xslot != RESET_SLOT && regs.xslot >= slots {
        return None;
      }
      var next := NextSlot(regs.xslot, slots);
      var active := regs.ditctl % 2 == 1 || next in regs.xtdm;
      if regs.boundaries == U64_MAX || (active && regs.generation == U64_MAX) {
        return None;
      }
      regs := regs.(xslot := next, boundaries := regs.boundaries + 1);
      if !active {
        return Some(false);
      }
      ghost var t := regs;
      assert ActiveTx(t) == serializers;
      MoveAll();
      TransferFrame(t);
      SameOrder(t, regs, 0);
      regs := regs.(xrdy := serializers, dmaNext := NextTx(regs, 0), xstat := regs.xstat + {XDATA},
                    generation := regs.generation + 1);
      return Some(true);
    }
  }
}
