/**
 The McASP's resets: what each holds still, what releasing it starts, and which bits of GBLCTL
 a run of writes through its aliases leaves.
 */
module McaspControl {
  import opened Common
  import opened Mcasp

  /** What a section held in reset shows, and where the DMA port may stand. */
  ghost predicate Orderly(s: Mcasp) {
    && Shaped(s)
    && (XSRCLR !in s.gblctl ==> s.xrdy == {} && XDATA !in s.xstat && s.dmaNext == s.count)
    && (XFRST !in s.gblctl ==> s.xslot == RESET_SLOT)
    && s.dmaNext <= s.count && (s.dmaNext < s.count ==> IsTx(s, s.dmaNext))
  }

  lemma NextIsTx(s: Mcasp, after: nat, r: Mcasp)
    requires Shaped(s) && Shaped(r) && r.count == s.count && r.srctl == s.srctl
    ensures NextTx(s, after) <= s.count && (NextTx(s, after) < s.count ==> IsTx(r, NextTx(s, after)))
  {
    hide NextTx;
  }

  lemma DmaOrderly(s: Mcasp, word: nat)
    requires Orderly(s)
    ensures Orderly(Do(s, Dma(word)))
  {
    if !PeripheralPort(s) && s.dmaNext < s.count && s.writes < U64_MAX {
      DmaEffect(s, word);
      NextIsTx(s, s.dmaNext + 1, Do(s, Dma(word)));
      DmaKeeps(s, word);
    }
    hide NextTx, ActiveTx, NoteWrite;
  }

  lemma DmaKeeps(s: Mcasp, word: nat)
    requires Shaped(s)
    ensures var r := Do(s, Dma(word)); r.gblctl == s.gblctl && r.xslot == s.xslot
  {
    hide NextTx, ActiveTx;
  }

  lemma BufOrderly(s: Mcasp, n: nat, word: nat)
    requires Orderly(s)
    ensures Orderly(Do(s, Buf(n, word)))
  {
    hide NextTx, ActiveTx;
  }

  lemma SrctlOrderly(s: Mcasp, n: nat, v: nat)
    requires Orderly(s)
    ensures Orderly(Do(s, Srctl(n, v)))
  {
    if n < s.count && LegalSrctl(v) {
      var t := s.(srctl := s.srctl[n := v]);
      NextIsTx(t, n + 1, t);
    }
    hide NextTx, ActiveTx, LegalSrctl;
  }

  lemma SlotOrderly(s: Mcasp)
    requires Orderly(s)
    ensures Orderly(Do(s, Slot))
  {
    if TxSlot(s).Some? {
      assert XSRCLR in s.gblctl && XFRST in s.gblctl;
      NextIsTx(s, 0, Do(s, Slot));
      SlotKeeps(s);
      hide TxSlot, NextTx;
    } else {
      hide TxSlot;
    }
  }

  lemma SlotKeeps(s: Mcasp)
    requires Shaped(s) && TxSlot(s).Some?
    ensures var r := TxSlot(s).value.state;
            && Shaped(r) && r.gblctl == s.gblctl && r.srctl == s.srctl && r.count == s.count
            && (r.dmaNext == s.dmaNext || r.dmaNext == NextTx(s, 0))
  {
    SameOrder(s, s.(xslot := NextSlot(s.xslot, Slots(s).value), boundaries := s.boundaries + 1), 0);
    hide Slots, NextSlot, Moves, NextTx, Order;
  }

  /** A write to GBLCTL: each bit it names becomes what it says. */
  lemma GblctlBits(s: Mcasp, mask: set<nat>, v: set<nat>)
    requires Shaped(s)
    ensures forall b :: b in GblctlWrite(s, mask, v).gblctl <==> if b in mask then b in v else b in s.gblctl
  {
    hide NextTx, ActiveTx;
  }

  /**
   What a write to GBLCTL does beside its bits: holding the serializers clears their requests,
   releasing them asks for a word for each active one, from the first on, and counts a new frame
   if there is one; releasing the state machine while words are missing is an underrun; and a
   frame generator held stands before slot 0.
   */
  lemma Resets(s: Mcasp, mask: set<nat>, v: set<nat>)
    requires Shaped(s)
    ensures var r := GblctlWrite(s, mask, v);
            var rises := XSRCLR in r.gblctl && XSRCLR !in s.gblctl;
            && (XSRCLR !in r.gblctl ==> r.xrdy == {} && XDATA !in r.xstat && r.dmaNext == r.count && r.generation == s.generation)
            && (rises ==> (forall n :: n in r.xrdy <==> IsTx(s, n)) && r.dmaNext == NextTx(s, 0)
                          && (XDATA in r.xstat <==> r.xrdy != {} || XDATA in s.xstat)
                          && r.generation == if r.xrdy != {} && s.generation != U64_MAX then s.generation + 1 else s.generation)
            && (!rises && XSRCLR in r.gblctl ==>
                  r.xrdy == s.xrdy && r.dmaNext == s.dmaNext && (XDATA in r.xstat <==> XDATA in s.xstat) && r.generation == s.generation)
            && (UNDERRUN in r.xstat <==> UNDERRUN in s.xstat || (XSMRST in r.gblctl && XSMRST !in s.gblctl && r.xrdy != {}))
            && r.xslot == (if XFRST in r.gblctl then s.xslot else RESET_SLOT)
            && r.srctl == s.srctl && r.count == s.count && r.accepted == s.accepted && r.shifted == s.shifted
  {
    var t := s.(gblctl := (s.gblctl - mask) + v * mask, xslot := if XFRST in (s.gblctl - mask) + v * mask then s.xslot else RESET_SLOT);
    SameOrder(s, t, 0);
    assert forall n :: IsTx(s, n) == IsTx(t, n);
    assert ActiveTx(t) == ActiveTx(s);
    hide NextTx, Order, IsTx, ActiveTx;
  }

  /**
   A boundary is taken exactly with the whole transmit section released, a serializer on it, a
   frame length that stands, the slot inside it, and room to count.
   */
  lemma BoundaryWhen(s: Mcasp)
    requires Shaped(s)
    ensures TxSlot(s).Some? <==>
              && {8, 9, 10, 11, 12} <= s.gblctl && (exists n :: IsTx(s, n))
              && (var mode := s.afsxctl / 0x80;
                  var slots := if s.ditctl % 2 == 1 then 384 else mode;
                  && (if s.ditctl % 2 == 1 then mode == 384 && forall n | 0 <= n < 32 :: n in s.xtdm else 2 <= mode <= 32)
                  && (s.xslot == RESET_SLOT || s.xslot < slots)
                  && s.boundaries != U64_MAX
                  && (s.ditctl % 2 == 1 || (if s.xslot == RESET_SLOT || s.xslot + 1 == slots then 0 else s.xslot + 1) in s.xtdm
                      ==> s.generation != U64_MAX))
  {
    assert (exists n :: IsTx(s, n)) <==> ActiveTx(s) != {};
    hide Transfer, NextTx, IsTx, ActiveTx;
  }

  lemma GblctlOrderly(s: Mcasp, mask: set<nat>, v: set<nat>)
    requires Orderly(s)
    ensures Orderly(Do(s, Gblctl(mask, v)))
  {
    if v <= GBL_BITS {
      Resets(s, mask, v);
      NextIsTx(s, 0, GblctlWrite(s, mask, v));
      assert forall n :: IsTx(s, n) == IsTx(GblctlWrite(s, mask, v), n);
    }
    hide GblctlWrite, NextTx;
  }

  lemma ResetOrderly(count: nat)
    ensures Orderly(Reset(count))
  {
  }

  /**
   Over any run: serializers held in reset ask for nothing, a frame generator held stands before
   slot 0, and the DMA port stands at an active serializer or past them all.
   */
  lemma {:induction false} RunOrderly(count: nat, ops: seq<Op>)
    requires 0 < count <= 16
    ensures Orderly(Play(count, ops))
    decreases |ops|
  {
    if ops == [] {
      ResetOrderly(count);
      hide Orderly;
    } else {
      RunOrderly(count, ops[..|ops| - 1]);
      hide Orderly, Do, Valid;
      DoOrderly(Play(count, ops[..|ops| - 1]), ops[|ops| - 1]);
    }
  }

  lemma DoOrderly(s: Mcasp, op: Op)
    requires Orderly(s)
    ensures Shaped(s) && Orderly(Do(s, op))
  {
    match op
    case Gblctl(mask, bits) =>
      GblctlOrderly(s, mask, bits);
      hide Do, Orderly;
    case Dma(word) =>
      DmaOrderly(s, word);
      hide Do, Orderly;
    case Buf(n, word) =>
      BufOrderly(s, n, word);
      hide Do, Orderly;
    case Srctl(n, v) =>
      SrctlOrderly(s, n, v);
      hide Do, Orderly;
    case Slot =>
      SlotOrderly(s);
      hide Do, Orderly;
    case _ => hide ActiveTx, NextTx, TxSlot, GblctlWrite, DmaWrite, BufWrite, SrctlWrite;
  }

  /** What the last write naming bit `b` of GBLCTL said of it. */
  function LastBit(ops: seq<Op>, b: nat): Option<bool>
    decreases |ops|
  {
    if ops == [] then None
    else
      var op := ops[|ops| - 1];
      if op.Gblctl? && op.bits <= GBL_BITS && b in op.mask then Some(b in op.bits) else LastBit(ops[..|ops| - 1], b)
  }

  lemma DoBits(s: Mcasp, op: Op, b: nat)
    requires Shaped(s)
    ensures b in Do(s, op).gblctl <==>
              if op.Gblctl? && op.bits <= GBL_BITS && b in op.mask then b in op.bits else b in s.gblctl
  {
    if op.Gblctl? {
      GblctlBits(s, op.mask, op.bits);
      hide GblctlWrite;
    } else if op.Slot? {
      if TxSlot(s).Some? {
        SlotKeeps(s);
      }
      hide TxSlot;
    } else {
      hide NextTx, ActiveTx;
    }
  }

  lemma {:induction false} LastBitWins(count: nat, ops: seq<Op>, b: nat)
    requires 0 < count <= 16
    ensures b in Play(count, ops).gblctl <==> LastBit(ops, b) == Some(true)
    decreases |ops|
  {
    if ops != [] {
      LastBitWins(count, ops[..|ops| - 1], b);
      hide Do, Valid;
      DoBits(Play(count, ops[..|ops| - 1]), ops[|ops| - 1], b);
    } else {
      hide Valid;
    }
  }

  // ------------------------------------------------------------ the settings

  /** The slot mask, format and frame register last accepted in a run. */
  function LastTdm(ops: seq<Op>): set<nat>
    decreases |ops|
  {
    if ops == [] then {} else if ops[|ops| - 1].Tdm? then ops[|ops| - 1].slots else LastTdm(ops[..|ops| - 1])
  }

  function LastFmt(ops: seq<Op>): nat
    decreases |ops|
  {
    if ops == [] then 0
    else if ops[|ops| - 1].Fmt? && LegalFmt(ops[|ops| - 1].v) then ops[|ops| - 1].v else LastFmt(ops[..|ops| - 1])
  }

  function LastAfsx(ops: seq<Op>): nat
    decreases |ops|
  {
    if ops == [] then 0
    else if ops[|ops| - 1].Afsx? && LegalAfsx(ops[|ops| - 1].v) then ops[|ops| - 1].v else LastAfsx(ops[..|ops| - 1])
  }

  lemma OpSets(s: Mcasp, op: Op)
    requires Shaped(s)
    ensures var r := Do(s, op);
            && r.xtdm == (if op.Tdm? then op.slots else s.xtdm)
            && r.xfmt == (if op.Fmt? && LegalFmt(op.v) then op.v else s.xfmt)
            && r.afsxctl == (if op.Afsx? && LegalAfsx(op.v) then op.v else s.afsxctl)
  {
    hide NextTx, ActiveTx, Slots, NextSlot, Moves, LegalFmt, LegalAfsx;
  }

  /** Over any run the settings are those last accepted. */
  lemma {:induction false} LastSettings(count: nat, ops: seq<Op>)
    requires 0 < count <= 16
    ensures var s := Play(count, ops); s.xtdm == LastTdm(ops) && s.xfmt == LastFmt(ops) && s.afsxctl == LastAfsx(ops)
    decreases |ops|
  {
    if ops != [] {
      hide Do, Valid, LegalFmt, LegalAfsx;
      LastSettings(count, ops[..|ops| - 1]);
      ValidShaped(Play(count, ops[..|ops| - 1]));
      OpSets(Play(count, ops[..|ops| - 1]), ops[|ops| - 1]);
    } else {
      hide Valid;
    }
  }
}
