/**
 What the rehearsal of an EDMA trigger says about the run it precedes.  A run is the plan
 drawn from the registers, so all that can come between the two is a peripheral that takes
 a word in the rehearsal and refuses the word it gets in the run.
 */
module EdmaPreview {
  import opened Common
  import opened Memory
  import opened Edma
  import opened EdmaPlan
  import Mcasp

  /** A move that can be read, checked, and goes to memory or is one word for a peripheral. */
  predicate Mapped(c: Config, m: Move) {
    Span(c, m.src, m.n).Some? && (Span(c, m.dst, m.n).Some? || m.n == 4)
  }

  /** The addresses outside memory that some moves write to. */
  ghost function Outside(c: Config, moves: seq<Move>): iset<nat> {
    iset m | m in moves && Span(c, m.dst, m.n).None? :: m.dst
  }

  /** Wherever in `at` a peripheral `d0` would take some word, `d1` takes any word. */
  ghost predicate AsOpen<D(!new)>(port: Port<D>, at: iset<nat>, d0: D, d1: D) {
    forall a: nat, v: nat, w: nat | a in at && v < WORD && w < WORD && port.write(d0, a, v).Some? ::
      port.write(d1, a, w).Some?
  }

  /**
   At the addresses `at` a peripheral's answer depends neither on the word written nor on
   what has been written there before.
   */
  ghost predicate Dependable<D(!new)>(port: Port<D>, at: iset<nat>) {
    && (forall d :: AsOpen(port, at, d, d))
    && (forall d, a: nat, v: nat | a in at && v < WORD && port.write(d, a, v).Some? ::
          AsOpen(port, at, d, port.write(d, a, v).value))
  }

  /** The peripheral `d` takes any `n` words at the addresses `at`. */
  ghost predicate Takes<D(!new)>(port: Port<D>, d: D, at: iset<nat>, n: nat) {
    n == 0 ||
    forall a: nat, v: nat | a in at && v < WORD ::
      port.write(d, a, v).Some? && Takes(port, port.write(d, a, v).value, at, n - 1)
  }

  /**
   What a trigger's moves can be checked for beforehand: where they leave memory, the
   peripherals there are dependable, or have room for that many words.
   */
  ghost predicate Sure<D(!new)>(port: Port<D>, b: Bus<D>, moves: seq<Move>) {
    var at := Outside(b.config, moves);
    Dependable(port, at) || Takes(port, b.device, at, |moves|)
  }

  lemma {:induction false} LittleWord(bytes: seq<Byte>)
    requires |bytes| == 4
    ensures Little(bytes) < WORD
  {
    LittleBound(bytes);
    PowersOf256();
  }

  lemma OpenOnward<D(!new)>(port: Port<D>, at: iset<nat>, d0: D, d1: D, a: nat, v: nat)
    requires Dependable(port, at) && AsOpen(port, at, d0, d1) && a in at && v < WORD && port.write(d1, a, v).Some?
    ensures AsOpen(port, at, d0, port.write(d1, a, v).value)
  {
    var d2 := port.write(d1, a, v).value;
    assert AsOpen(port, at, d1, d2);
    forall x: nat, y: nat, z: nat | x in at && y < WORD && z < WORD && port.write(d0, x, y).Some?
      ensures port.write(d2, x, z).Some?
    {
      assert port.write(d1, x, y).Some?;
    }
  }

  lemma OutsideSplits(c: Config, moves: seq<Move>)
    requires moves != []
    ensures Outside(c, moves[1..]) <= Outside(c, moves)
    ensures Span(c, moves[0].dst, moves[0].n).None? ==> moves[0].dst in Outside(c, moves)
  {
    assert forall m | m in moves[1..] :: m in moves;
    assert moves[0] in moves;
  }

  /** One write a rehearsal accepts is accepted for real, whatever bytes have been read since. */
  lemma WriteFollows<D(!new)>(port: Port<D>, at: iset<nat>, b0: Bus<D>, b1: Bus<D>, a: nat, d0: seq<Byte>, d1: seq<Byte>)
    requires BusOk(b0) && BusOk(b1) && b0.config == b1.config && |d0| == |d1|
    requires Dependable(port, at) && AsOpen(port, at, b0.device, b1.device) && (Span(b0.config, a, |d0|).None? ==> a in at)
    requires WriteBytes(port, b0, a, d0, false).Some?
    ensures WriteBytes(port, b1, a, d1, false).Some? && WriteBytes(port, b1, a, d1, true).Some?
    ensures AsOpen(port, at, b0.device, WriteBytes(port, b1, a, d1, true).value.device)
  {
    if Span(b0.config, a, |d0|).None? {
      LittleWord(d0);
      LittleWord(d1);
      assert port.write(b1.device, a, Little(d1)).Some?;
      OpenOnward(port, at, b0.device, b1.device, a, Little(d1));
    }
  }

  /** Moves a rehearsal takes are carried out, where the peripherals they reach are dependable. */
  lemma {:induction false} CarryFollows<D(!new)>(port: Port<D>, at: iset<nat>, b0: Bus<D>, b1: Bus<D>, moves: seq<Move>)
    requires BusOk(b0) && BusOk(b1) && b0.config == b1.config && Outside(b0.config, moves) <= at
    requires Dependable(port, at) && AsOpen(port, at, b0.device, b1.device)
    requires Carry(port, b0, moves, false).ok
    ensures Carry(port, b1, moves, true).ok
    decreases |moves|
  {
    if moves != [] {
      OutsideSplits(b0.config, moves);
      var m := moves[0];
      var x0, x1 := Read(b0, m.src, m.n).value, Read(b1, m.src, m.n).value;
      hide Dependable, AsOpen, Outside;
      WriteFollows(port, at, b0, b1, m.dst, x0, x1);
      CheckedIsSame(port, b0, m.dst, x0);
      hide WriteBytes, BusOk;
      CarryFollows(port, at, b0, WriteBytes(port, b1, m.dst, x1, true).value, moves[1..]);
    }
  }

  lemma WriteTaken<D(!new)>(port: Port<D>, at: iset<nat>, b: Bus<D>, a: nat, data: seq<Byte>, n: nat, commit: bool)
    requires BusOk(b) && n > 0 && Takes(port, b.device, at, n) && (Span(b.config, a, |data|).None? ==> a in at)
    ensures var w := WriteBytes(port, b, a, data, commit);
            && (w.Some? <==> Span(b.config, a, |data|).Some? || |data| == 4)
            && (w.Some? ==> Takes(port, w.value.device, at, n - 1))
  {
    FewerTaken(port, b.device, at, n);
    if |data| == 4 {
      LittleWord(data);
    }
  }

  lemma {:induction false} FewerTaken<D(!new)>(port: Port<D>, d: D, at: iset<nat>, n: nat)
    requires n > 0 && Takes(port, d, at, n)
    ensures Takes(port, d, at, n - 1)
  {
    if n > 1 {
      forall a: nat, v: nat | a in at && v < WORD
        ensures port.write(d, a, v).Some? && Takes(port, port.write(d, a, v).value, at, n - 2)
      {
        FewerTaken(port, port.write(d, a, v).value, at, n - 1);
      }
    }
  }

  /** With room in the peripherals, moves are taken exactly when the map has a place for each, rehearsed or real. */
  lemma {:induction false} CarryTaken<D(!new)>(port: Port<D>, at: iset<nat>, b: Bus<D>, moves: seq<Move>, commit: bool)
    requires BusOk(b) && Outside(b.config, moves) <= at && Takes(port, b.device, at, |moves|)
    ensures Carry(port, b, moves, commit).ok <==> forall m | m in moves :: Mapped(b.config, m)
    decreases |moves|
  {
    if moves != [] {
      OutsideSplits(b.config, moves);
      var m := moves[0];
      assert m in moves && forall x | x in moves[1..] :: x in moves;
      assert forall x | x in moves :: x == m || x in moves[1..];
      var data := Read(b, m.src, m.n);
      hide Outside, Takes, Span;
      if data.Some? {
        WriteTaken(port, at, b, m.dst, data.value, |moves|, false);
        WriteTaken(port, at, b, m.dst, data.value, |moves|, commit);
        hide WriteBytes, BusOk;
        var w := WriteBytes(port, b, m.dst, data.value, commit);
        if w.Some? {
          CarryTaken(port, at, w.value, moves[1..], commit);
        }
      }
    }
  }

  lemma SureCarries<D(!new)>(port: Port<D>, b: Bus<D>, moves: seq<Move>)
    requires BusOk(b) && Sure(port, b, moves) && Carry(port, b, moves, false).ok
    ensures Carry(port, b, moves, true).ok
  {
    var at := Outside(b.config, moves);
    if Dependable(port, at) {
      assert AsOpen(port, at, b.device, b.device);
      CarryFollows(port, at, b, b, moves);
    } else {
      CarryTaken(port, at, b, moves, false);
      CarryTaken(port, at, b, moves, true);
    }
  }

  /** Moves between memories are sure on any bus, whatever peripherals it has. */
  lemma MemoryIsSure<D(!new)>(port: Port<D>, b: Bus<D>, moves: seq<Move>)
    requires forall m | m in moves :: Span(b.config, m.dst, m.n).Some?
    ensures Sure(port, b, moves) && Takes(port, b.device, Outside(b.config, moves), |moves|)
  {
    assert Outside(b.config, moves) == iset{};
  }

  // ------------------------------------------------------- the McASP's DMA port

  /** On this port the word at `address` goes to the DMA port of the McASP that `view` shows. */
  ghost predicate HasDmaPort<D(!new)>(port: Port<D>, view: D -> Mcasp.Mcasp, address: nat) {
    && (forall d :: Mcasp.Shaped(view(d)))
    && forall d, v: nat | v < WORD ::
         match Mcasp.DmaWrite(view(d), v)
         case None => port.write(d, address, v).None?
         case Some(t) => port.write(d, address, v).Some? && view(port.write(d, address, v).value) == t
  }

  /** The DMA port takes words until 2^64 of them have been taken, so transfers to it are sure. */
  lemma {:induction false} DmaPortTakes<D(!new)>(port: Port<D>, view: D -> Mcasp.Mcasp, address: nat, d: D, n: nat)
    requires HasDmaPort(port, view, address) && view(d).writes + n <= Mcasp.U64_MAX
    ensures Takes(port, d, iset{address}, n)
  {
    hide HasDmaPort;
    if n > 0 {
      forall a: nat, v: nat | a in iset{address} && v < WORD
        ensures port.write(d, a, v).Some? && Takes(port, port.write(d, a, v).value, iset{address}, n - 1)
      {
        DmaPortWord(port, view, address, d, v);
        DmaPortTakes(port, view, address, port.write(d, address, v).value, n - 1);
      }
    }
  }

  lemma DmaPortWord<D(!new)>(port: Port<D>, view: D -> Mcasp.Mcasp, address: nat, d: D, v: nat)
    requires HasDmaPort(port, view, address) && view(d).writes < Mcasp.U64_MAX && v < WORD
    ensures port.write(d, address, v).Some? && view(port.write(d, address, v).value).writes <= view(d).writes + 1
  {
    DmaWriteCounts(view(d), v);
    hide Mcasp.DmaWrite, Mcasp.Shaped;
  }

  lemma DmaWriteCounts(s: Mcasp.Mcasp, v: nat)
    requires Mcasp.Shaped(s) && s.writes < Mcasp.U64_MAX
    ensures Mcasp.DmaWrite(s, v).Some? && Mcasp.DmaWrite(s, v).value.writes <= s.writes + 1
  {
  }

  lemma {:induction false} TakesLess<D(!new)>(port: Port<D>, d: D, at: iset<nat>, less: iset<nat>, n: nat)
    requires Takes(port, d, at, n) && less <= at
    ensures Takes(port, d, less, n)
  {
    if n > 0 {
      forall a: nat, v: nat | a in less && v < WORD
        ensures port.write(d, a, v).Some? && Takes(port, port.write(d, a, v).value, less, n - 1)
      {
        TakesLess(port, port.write(d, a, v).value, at, less, n - 1);
      }
    }
  }

  /** What this board's firmware does, memory to memory and memory to a McASP's DMA port, is sure. */
  lemma AudioIsSure<D(!new)>(port: Port<D>, view: D -> Mcasp.Mcasp, address: nat, b: Bus<D>, moves: seq<Move>)
    requires HasDmaPort(port, view, address) && view(b.device).writes + |moves| <= Mcasp.U64_MAX
    requires forall m | m in moves :: Span(b.config, m.dst, m.n).Some? || m.dst == address
    ensures Sure(port, b, moves) && Takes(port, b.device, Outside(b.config, moves), |moves|)
  {
    DmaPortTakes(port, view, address, b.device, |moves|);
    TakesLess(port, b.device, iset{address}, Outside(b.config, moves), |moves|);
  }

  // -------------------------------------------------------------- an event

  /**
   An event whose moves are sure is served if and only if its rehearsal succeeds, and leaves
   the registers its plan computes.
   */
  lemma RehearsalDecides<D(!new)>(port: Port<D>, s: Engine, b: Bus<D>, channel: nat)
    requires Valid(s) && BusOk(b) && Sure(port, b, EventPlan(s, channel).moves)
    ensures Signal(port, s, b, channel).ok <==> Rehearses(port, s, b, channel)
    ensures Signal(port, s, b, channel).ok ==> Signal(port, s, b, channel).engine == EventPlan(s, channel).engine
  {
    if channel < CHANNELS && channel in s.eer {
      SignalParts(port, s, b, channel);
      var l, events := Latched(s, channel), [Event(Dma, channel)];
      assert EventPlan(s, channel) == PlanOf(l, events, 0);
      hide Sure, Valid, Service, PlanOf, Latched, Signal, Rehearses, EventPlan;
      if Service(port, l, b, events, 0, false).ok {
        SureService(port, l, l, b, events);
      }
    }
  }

  /**
   Where the peripherals have room, as they trivially do for moves between memories, an enabled
   event is served if and only if its plan stands and the map has a place for every move: the
   registers and the address map decide, whatever the bytes.
   */
  lemma MapDecides<D(!new)>(port: Port<D>, s: Engine, b: Bus<D>, channel: nat)
    requires Valid(s) && BusOk(b) && channel < CHANNELS && channel in s.eer
    requires var moves := EventPlan(s, channel).moves; Takes(port, b.device, Outside(b.config, moves), |moves|)
    ensures var plan := EventPlan(s, channel);
            Signal(port, s, b, channel).ok <==> plan.ok && forall m | m in plan.moves :: Mapped(b.config, m)
  {
    var l, events, plan := Latched(s, channel), [Event(Dma, channel)], EventPlan(s, channel);
    SignalParts(port, s, b, channel);
    assert plan == PlanOf(l, events, 0);
    hide Takes, Valid, Service, PlanOf, Latched, Signal, Rehearses, EventPlan, Outside, Mapped, BusOk, Carry;
    ServiceIsPlan(port, l, b, events, 0, false);
    ServiceIsPlan(port, l, b, events, 0, true);
    CarryTaken(port, Outside(b.config, plan.moves), b, plan.moves, false);
    CarryTaken(port, Outside(b.config, plan.moves), b, plan.moves, true);
  }

  /** A run follows its rehearsal: trial and actual engine need only agree on what steers them. */
  lemma SureService<D(!new)>(port: Port<D>, trial: Engine, actual: Engine, b: Bus<D>, events: seq<Event>)
    requires Valid(trial) && Valid(actual) && SameControl(trial, actual) && BusOk(b)
    requires (forall e | e in events :: Known(e)) && |events| <= CHANNELS
    requires Sure(port, b, PlanOf(trial, events, 0).moves) && Service(port, trial, b, events, 0, false).ok
    ensures Service(port, actual, b, events, 0, true).ok
    ensures SameControl(PlanOf(trial, events, 0).engine, Service(port, actual, b, events, 0, true).engine)
    ensures trial == actual ==> Service(port, actual, b, events, 0, true).engine == PlanOf(trial, events, 0).engine
  {
    ServiceIsPlan(port, trial, b, events, 0, false);
    ServiceIsPlan(port, actual, b, events, 0, true);
    ControlDecides(trial, actual, events, 0);
    hide Service, PlanOf, Carry, Valid, BusOk;
    SureCarries(port, b, PlanOf(trial, events, 0).moves);
    hide SameControl, Sure;
  }

  /**
   An event that is refused leaves registers, memory and peripherals as they were: on any bus
   if it was its rehearsal that failed, and in any case if its moves are sure.
   */
  lemma RefusedEventIsInert<D(!new)>(port: Port<D>, s: Engine, b: Bus<D>, channel: nat)
    requires Valid(s) && BusOk(b) && !Signal(port, s, b, channel).ok
    requires !Rehearses(port, s, b, channel) || Sure(port, b, EventPlan(s, channel).moves)
    ensures Signal(port, s, b, channel) == Run(false, s, b)
  {
    if Rehearses(port, s, b, channel) {
      RehearsalDecides(port, s, b, channel);
    }
    hide Sure, Valid, Service;
  }

  // ------------------------------------------------------- a register write

  /** The engine on which a register write is rehearsed. */
  ghost function WriteTrial(s: Engine, a: Access): Engine
    requires Valid(s) && Decoded(a)
  {
    match a
    case ParamWords(set_, word, words) =>
      if LegalWords(word, words) then s.(param := s.param[set_ := SetWords(s.param[set_], word, words)]) else s
    case QchmapWord(_, _) => s
    case ChannelReg(region, reg, value) =>
      var d := Masked(s, region, false, value);
      if reg == ESR then s.(esr := s.esr + d) else if reg == EESR then s.(eer := s.eer + d) else s
  }

  /** The engine on which it is then carried out. */
  ghost function WriteActual(s: Engine, a: Access): Engine
    requires Valid(s) && Decoded(a)
  {
    var trial := WriteTrial(s, a);
    if a.ParamWords? then trial.(qer := trial.qer + ToSet(Triggered(s, a.set_, a.word, |a.words|, 0))) else trial
  }

  /** The events it queues. */
  ghost function WriteEvents(s: Engine, a: Access): seq<Event>
    requires Valid(s) && Decoded(a)
  {
    match a
    case ParamWords(set_, word, words) =>
      if LegalWords(word, words) then Qdmas(Triggered(s, set_, word, |words|, 0)) else []
    case QchmapWord(_, _) => []
    case ChannelReg(region, reg, value) =>
      var d := Masked(s, region, false, value);
      if reg == ESR then Channels(d, 0) else if reg == EESR then Channels(d * s.er, 0) else []
  }

  /** The writes that are rehearsed and then carried out. */
  predicate Tries(a: Access) {
    if a.ParamWords? then LegalWords(a.word, a.words) else a.ChannelReg? && (a.reg == ESR || a.reg == EESR)
  }

  lemma TrialValid(s: Engine, a: Access)
    requires Valid(s) && Decoded(a)
    ensures var trial, actual, events := WriteTrial(s, a), WriteActual(s, a), WriteEvents(s, a);
            && Valid(trial) && (Tries(a) ==> Valid(actual) && SameControl(trial, actual))
            && |events| <= CHANNELS && (forall e | e in events :: Known(e))
  {
    match a
    case QchmapWord(_, _) =>
      hide Valid, Decoded;
    case ParamWords(_, _, _) =>
      hide *;
      ParamTrialValid(s, a);
    case ChannelReg(_, _, _) =>
      hide *;
      ChannelTrialValid(s, a);
  }

  lemma ParamTrialValid(s: Engine, a: Access)
    requires Valid(s) && Decoded(a) && a.ParamWords?
    ensures var trial, actual, events := WriteTrial(s, a), WriteActual(s, a), WriteEvents(s, a);
            && Valid(trial) && (Tries(a) ==> Valid(actual) && SameControl(trial, actual))
            && |events| <= CHANNELS && (forall e | e in events :: Known(e))
  {
    if LegalWords(a.word, a.words) {
      WriteParamValid(s, a);
      hide Valid, SetWords, Triggered, LegalWords;
    } else {
      hide Valid, Decoded, LegalWords;
    }
  }

  lemma ChannelTrialValid(s: Engine, a: Access)
    requires Valid(s) && Decoded(a) && a.ChannelReg?
    ensures var trial, actual, events := WriteTrial(s, a), WriteActual(s, a), WriteEvents(s, a);
            && Valid(trial) && (Tries(a) ==> Valid(actual) && SameControl(trial, actual))
            && |events| <= CHANNELS && (forall e | e in events :: Known(e))
  {
    var d := Masked(s, a.region, false, a.value);
    ChannelRegValid(s, a);
    ChannelsKnown(d, 0);
    ChannelsKnown(d * s.er, 0);
    hide Valid, PlainWrite, Masked, Channels, Accepts, IsQdmaReg;
  }

  /** What a register write sets in motion. */
  ghost function WritePlan(s: Engine, a: Access): Plan
    requires Valid(s) && Decoded(a)
  {
    TrialValid(s, a);
    PlanOf(WriteTrial(s, a), WriteEvents(s, a), 0)
  }

  ghost predicate WriteRehearses<D>(port: Port<D>, s: Engine, b: Bus<D>, a: Access)
    requires Valid(s) && Decoded(a) && BusOk(b)
  {
    TrialValid(s, a);
    Service(port, WriteTrial(s, a), b, WriteEvents(s, a), 0, false).ok
  }

  lemma WriteTries<D>(port: Port<D>, s: Engine, b: Bus<D>, a: Access, commit: bool)
    requires Valid(s) && BusOk(b) && Decoded(a) && Tries(a)
    requires Valid(WriteTrial(s, a)) && Valid(WriteActual(s, a))
    requires |WriteEvents(s, a)| <= CHANNELS && forall e | e in WriteEvents(s, a) :: Known(e)
    ensures WriteReg(port, s, b, a, commit) ==
            Attempt(port, s, WriteTrial(s, a), WriteActual(s, a), b, WriteEvents(s, a), commit)
  {
    hide Valid, Attempt, SetWords, Triggered, LegalWords, Masked, Channels, PlainWrite;
  }

  /**
   For a register write whose moves are sure, checking decides committing: it is accepted if
   and only if it is accepted without the commit, and the engine it then leaves agrees with
   the rehearsed one on PaRAM, QCHMAP and QEER.
   */
  lemma CheckDecides<D(!new)>(port: Port<D>, s: Engine, b: Bus<D>, a: Access)
    requires Valid(s) && BusOk(b) && Decoded(a) && Sure(port, b, WritePlan(s, a).moves)
    ensures WriteReg(port, s, b, a, true).ok <==> WriteReg(port, s, b, a, false).ok
    ensures Tries(a) && WriteReg(port, s, b, a, true).ok ==>
              SameControl(WritePlan(s, a).engine, WriteReg(port, s, b, a, true).engine)
  {
    TrialValid(s, a);
    hide Valid, SameControl, Sure;
    if Tries(a) {
      hide WriteReg;
      WriteTries(port, s, b, a, true);
      WriteTries(port, s, b, a, false);
      AttemptDecided(port, s, WriteTrial(s, a), WriteActual(s, a), b, WriteEvents(s, a));
    } else {
      hide Service, PlainWrite, Masked, LegalWords;
    }
  }

  lemma AttemptDecided<D(!new)>(port: Port<D>, s: Engine, trial: Engine, actual: Engine, b: Bus<D>, events: seq<Event>)
    requires BusOk(b) && Valid(s) && Valid(trial) && Valid(actual) && SameControl(trial, actual)
    requires |events| <= CHANNELS && (forall e | e in events :: Known(e)) && Sure(port, b, PlanOf(trial, events, 0).moves)
    ensures var checked, done := Attempt(port, s, trial, actual, b, events, false), Attempt(port, s, trial, actual, b, events, true);
            && (done.ok <==> checked.ok) && (checked.ok <==> Service(port, trial, b, events, 0, false).ok)
            && (done.ok ==> SameControl(PlanOf(trial, events, 0).engine, done.engine))
            && (!done.ok ==> done == Run(false, s, b))
  {
    if Service(port, trial, b, events, 0, false).ok {
      SureService(port, trial, actual, b, events);
    }
    hide Valid, Service, Sure, SameControl;
  }

  /**
   A register write that is refused leaves everything as it was, on any bus if its rehearsal
   failed and in any case if its moves are sure; except, exactly, a committed QEECR, QEESR or
   QSECR write with reserved bits, whose legal bits take effect although it is refused.
   */
  lemma RefusedWriteIsInert<D(!new)>(port: Port<D>, s: Engine, b: Bus<D>, a: Access, commit: bool)
    requires Valid(s) && BusOk(b) && Decoded(a) && !WriteReg(port, s, b, a, commit).ok
    requires !WriteRehearses(port, s, b, a) || Sure(port, b, WritePlan(s, a).moves)
    ensures WriteReg(port, s, b, a, commit) == Run(false, s, b) <==>
            !(commit && a.ChannelReg? && IsQdmaReg(a.reg) && PlainWrite(s, a.region, a.reg, a.value) != s)
  {
    TrialValid(s, a);
    hide Valid, SameControl, Sure;
    if Tries(a) {
      WriteTries(port, s, b, a, commit);
      hide WriteReg, PlainWrite;
      if WriteRehearses(port, s, b, a) {
        AttemptDecided(port, s, WriteTrial(s, a), WriteActual(s, a), b, WriteEvents(s, a));
      }
    } else {
      hide Service, PlainWrite, Masked, LegalWords;
    }
  }

  /** The case is real: on a fresh engine a committed QEESR write of 0x101 is refused and yet enables QDMA 0. */
  lemma RefusedWriteThatBites<D>(port: Port<D>, s: Engine, b: Bus<D>)
    requires Valid(s) && BusOk(b) && 0 !in s.qeer
    ensures Decoded(ChannelReg(None, QEESR, {0, 8}))
    ensures !WriteReg(port, s, b, ChannelReg(None, QEESR, {0, 8}), true).ok
    ensures 0 in WriteReg(port, s, b, ChannelReg(None, QEESR, {0, 8}), true).engine.qeer
  {
    assert 8 in {0, 8} && 0 in Masked(s, None, true, {0, 8});
  }

  // ---------------------------------- exactly which peripherals never mislead

  /** Every event that passes its rehearsal and leaves memory only at the addresses `at` is served. */
  ghost predicate PreviewDecides<D(!new)>(port: Port<D>, c: Config, at: iset<nat>) {
    forall s: Engine, b: Bus<D>, channel: nat
      | Valid(s) && BusOk(b) && b.config == c && Outside(c, EventPlan(s, channel).moves) <= at && Rehearses(port, s, b, channel) ::
      Signal(port, s, b, channel).ok
  }

  lemma DependableLess<D(!new)>(port: Port<D>, at: iset<nat>, less: iset<nat>)
    requires Dependable(port, at) && less <= at
    ensures Dependable(port, less)
  {
    forall d ensures AsOpen(port, less, d, d) {
      assert AsOpen(port, at, d, d);
    }
    forall d, a: nat, v: nat | a in less && v < WORD && port.write(d, a, v).Some?
      ensures AsOpen(port, less, d, port.write(d, a, v).value)
    {
      assert AsOpen(port, at, d, port.write(d, a, v).value);
    }
  }

  lemma DependableDecides<D(!new)>(port: Port<D>, c: Config, at: iset<nat>)
    requires Dependable(port, at)
    ensures PreviewDecides(port, c, at)
  {
    forall s: Engine, b: Bus<D>, channel: nat
      | Valid(s) && BusOk(b) && b.config == c && Outside(c, EventPlan(s, channel).moves) <= at && Rehearses(port, s, b, channel)
      ensures Signal(port, s, b, channel).ok
    {
      DependableLess(port, at, Outside(c, EventPlan(s, channel).moves));
      assert Sure(port, b, EventPlan(s, channel).moves);
      hide Dependable, EventPlan, Rehearses, Outside, Signal, Valid, Sure;
      RehearsalDecides(port, s, b, channel);
    }
  }

  /** One word moved once; completing it is final, and `opt` may chain to channel 1. */
  function OneWord(opt: nat, src: nat, dst: nat): Param {
    Param(opt, src, 0x10004, dst, 0, 0xffff, 0, 1)
  }

  const CHAIN_TO_1: nat := 0x401000

  /** Channel 0, enabled, moves the word at 0x80000000 to `dst0` and chains channel 1, which moves 0x80000004 to `dst1`. */
  function Probe(dst0: nat, dst1: nat): Engine {
    Engine(seq(PARAMS, i => if i == 0 then OneWord(CHAIN_TO_1, 0x80000000, dst0)
                            else if i == 1 then OneWord(0, 0x80000004, dst1) else NULL_SET),
           seq(QCHANNELS, i => 0), seq(REGIONS, i => {}), seq(REGIONS, i => {}),
           {}, {}, {}, {0}, {}, {}, {}, {}, {}, {}, {}, {}, {}, 0, 0)
  }

  function Bytes4(v: nat): (r: seq<Byte>)
    requires v < WORD
    ensures |r| == 4 && Little(r) == v
  {
    PowersOf256();
    LittleBytes(v, 4);
    Bytes(v, 4)
  }

  /** A memory with the two words in place. */
  function TwoWords(x: nat, y: nat): (m: seq<Byte>)
    requires x < WORD && y < WORD
    ensures |m| == TOTAL
    ensures m[SHARED_AT..SHARED_AT + 4] == Bytes4(x) && m[SHARED_AT + 4..SHARED_AT + 8] == Bytes4(y)
  {
    Between(SHARED_AT, Bytes4(x), Bytes4(y), TOTAL - SHARED_AT - 8)
  }

  function Between(before: nat, x: seq<Byte>, y: seq<Byte>, behind: nat): (m: seq<Byte>)
    ensures |m| == before + |x| + |y| + behind
    ensures m[before..before + |x|] == x && m[before + |x|..before + |x| + |y|] == y
  {
    seq(before, i => 0 as Byte) + x + y + seq(behind, i => 0 as Byte)
  }

  lemma ProbeValid(dst0: nat, dst1: nat)
    requires dst0 < WORD && dst1 < WORD
    ensures Valid(Probe(dst0, dst1))
    ensures ValidParam(OneWord(CHAIN_TO_1, 0x80000000, dst0)) && ValidParam(OneWord(0, 0x80000004, dst1))
  {
    OneWordOk(CHAIN_TO_1, 0x80000000, dst0);
    OneWordOk(0, 0x80000004, dst1);
    assert ParamOk(NULL_SET) && LegalQchmap(0);
    hide OneWord, ParamOk, ValidParam, LegalQchmap;
    var s := Probe(dst0, dst1);
    assert forall i | 0 <= i < PARAMS :: ParamOk(s.param[i]);
  }

  lemma OneWordOk(opt: nat, src: nat, dst: nat)
    requires src < WORD && dst < WORD && (opt == 0 || opt == CHAIN_TO_1)
    ensures ParamOk(OneWord(opt, src, dst)) && ValidParam(OneWord(opt, src, dst))
  {
  }

  lemma ChainsOnce(p: Param, q: Param)
    requires p.opt == CHAIN_TO_1 && q.opt == 0 && p.cnt == q.cnt == 0x10004 && p.ccnt == q.ccnt == 1
    requires p.link == q.link == 0xffff
    ensures p.Chains() && p.Tcc() == 1 && !Relinks(p) && !q.Chains() && !Relinks(q)
  {
  }

  lemma OneWordMoves(s: Engine, set_: nat, opt: nat, src: nat, dst: nat)
    requires set_ < |s.param| && s.param[set_] == OneWord(opt, src, dst) && !s.param[set_].AbSync()
    ensures OwnMoves(s, set_) == [Move(set_, src, dst, 4)]
  {
    var p := s.param[set_];
    assert p.ACnt() == 4 && Moves(Bump(p.src, p.SrcB()), Bump(p.dst, p.DstB()), p.SrcB(), p.DstB(), 0) == [];
    assert MovesOf(p) == [(src, dst)];
  }

  /** The probe's two requests: what the first leaves and sets off, and that the second is the last. */
  lemma ProbeSteps(dst0: nat, dst1: nat)
    requires dst0 < WORD && dst1 < WORD
    ensures Valid(Probe(dst0, dst1))
    ensures var s, e0, e1 := Latched(Probe(dst0, dst1), 0), Event(Dma, 0), Event(Dma, 1);
            && Valid(s) && ValidParam(s.param[0]) && s.param[0] == OneWord(CHAIN_TO_1, 0x80000000, dst0)
            && SetsOff(s, 0) == [e1] && OwnMoves(s, 0) == [Move(0, 0x80000000, dst0, 4)]
            && var t := Completed(s, e0, 0);
               && Valid(t) && ValidParam(t.param[1]) && t.param[1] == OneWord(0, 0x80000004, dst1)
               && SetsOff(t, 1) == [] && OwnMoves(t, 1) == [Move(1, 0x80000004, dst1, 4)]
               && t.param[0] == NULL_SET && 1 in t.cer && t.requests == 1
  {
    ProbeValid(dst0, dst1);
    var s, e0, e1 := Latched(Probe(dst0, dst1), 0), Event(Dma, 0), Event(Dma, 1);
    var p0, p1 := OneWord(CHAIN_TO_1, 0x80000000, dst0), OneWord(0, 0x80000004, dst1);
    assert s.param[0] == p0 && s.param[1] == p1;
    assert !p0.AbSync() && !p1.AbSync();
    ChainsOnce(p0, p1);
    OneWordMoves(s, 0, CHAIN_TO_1, 0x80000000, dst0);
    hide Valid, ValidParam;
    CompletedValid(s, e0, 0);
    var t := Completed(s, e0, 0);
    assert t.param == s.param[0 := NULL_SET];
    OneWordMoves(t, 1, 0, 0x80000004, dst1);
    assert SetsOff(s, 0) == [e1] && SetsOff(t, 1) == [];
  }

  /** The probe's plan: its two words, one after the other. */
  lemma ProbePlan(dst0: nat, dst1: nat)
    requires dst0 < WORD && dst1 < WORD
    ensures Valid(Probe(dst0, dst1)) && EventPlan(Probe(dst0, dst1), 0).ok
    ensures EventPlan(Probe(dst0, dst1), 0).moves == [Move(0, 0x80000000, dst0, 4), Move(1, 0x80000004, dst1, 4)]
  {
    ProbeSteps(dst0, dst1);
    var s, e0, e1 := Latched(Probe(dst0, dst1), 0), Event(Dma, 0), Event(Dma, 1);
    var t := Completed(s, e0, 0);
    assert 0 in Probe(dst0, dst1).eer && SetOf(s, e0) == 0 && SetOf(t, e1) == 1;
    assert e0 in [e0] && e1 in [e1] && [e0][1..] + [e1] == [e1] && [e1][1..] + [] == [];
    CompletedValid(t, e1, 1);
    hide Valid, ValidParam, Completed, OwnMoves, SetsOff, Latched, Probe;
    var u := Completed(t, e1, 1);
    assert PlanOf(u, [], 2) == Plan(true, u, []);
    assert PlanOf(t, [e1], 1) == Plan(true, u, OwnMoves(t, 1) + []);
    assert PlanOf(s, [e0], 0) == Plan(true, u, OwnMoves(s, 0) + (OwnMoves(t, 1) + []));
  }

  /** The two source words as every bus below presents them. */
  lemma SourceWords<D>(b: Bus<D>, x: nat, y: nat)
    requires BusOk(b) && b.store.Direct? && x < WORD && y < WORD
    requires b.store.bytes[SHARED_AT..SHARED_AT + 4] == Bytes4(x)
    requires b.store.bytes[SHARED_AT + 4..SHARED_AT + 8] == Bytes4(y)
    ensures Read(b, 0x80000000, 4) == Some(Bytes4(x)) && Read(b, 0x80000004, 4) == Some(Bytes4(y))
    ensures Span(b.config, 0x80000000, 4).Some? && Span(b.config, 0x80000004, 4) == Some(SHARED_AT + 4)
  {
  }

  /** One word moved to a peripheral. */
  lemma WordToPort<D>(port: Port<D>, b: Bus<D>, m: Move, v: nat, commit: bool)
    requires BusOk(b) && m.n == 4 && v < WORD && Read(b, m.src, 4) == Some(Bytes4(v)) && Span(b.config, m.dst, 4).None?
    ensures var d := port.write(b.device, m.dst, v);
            Carry(port, b, [m], commit) == Moved(d.Some?, if d.Some? && commit then b.(device := d.value) else b)
  {
    var data, d := Bytes4(v), port.write(b.device, m.dst, v);
    assert Little(data) == v && [m][1..] == [];
    hide Span, Read, Bytes4;
    assert WriteBytes(port, b, m.dst, data, false) == if d.Some? then Some(b) else None;
    if d.Some? {
      CarryNone(port, if commit then b.(device := d.value) else b, commit);
    }
  }

  /** One word moved within memory. */
  lemma WordToMemory<D>(port: Port<D>, b: Bus<D>, m: Move, v: nat)
    requires BusOk(b) && m.n == 4 && v < WORD && Read(b, m.src, 4) == Some(Bytes4(v)) && Span(b.config, m.dst, 4).Some?
    ensures Carry(port, b, [m], false) == Moved(true, b)
    ensures Carry(port, b, [m], true) == Moved(true, b.(store := Put(b.store, Span(b.config, m.dst, 4).value, Bytes4(v))))
  {
    var data := Bytes4(v);
    assert [m][1..] == [];
    var b1 := b.(store := Put(b.store, Span(b.config, m.dst, 4).value, data));
    hide Span, Read, Bytes4;
    assert WriteBytes(port, b, m.dst, data, false) == Some(b) && WriteBytes(port, b, m.dst, data, true) == Some(b1);
    hide WriteBytes, Put;
    CarryNone(port, b, false);
    CarryNone(port, b1, true);
  }

  /** A trigger whose rehearsal takes both words and whose run takes only the first. */
  lemma ProbeMisled<D>(port: Port<D>, dst0: nat, dst1: nat, b: Bus<D>, b1: Bus<D>)
    requires dst0 < WORD && dst1 < WORD && BusOk(b) && BusOk(b1) && Valid(Probe(dst0, dst1))
    requires Carry(port, b, [Move(0, 0x80000000, dst0, 4)], false).ok && Carry(port, b, [Move(1, 0x80000004, dst1, 4)], false).ok
    requires Carry(port, b, [Move(0, 0x80000000, dst0, 4)], true) == Moved(true, b1)
    requires Carry(port, b1, [Move(1, 0x80000004, dst1, 4)], true) == Moved(false, b1)
    ensures Rehearses(port, Probe(dst0, dst1), b, 0)
    ensures Signal(port, Probe(dst0, dst1), b, 0) == Run(false, Completed(Latched(Probe(dst0, dst1), 0), Event(Dma, 0), 0), b1)
  {
    var p, s, e0, e1 := Probe(dst0, dst1), Latched(Probe(dst0, dst1), 0), Event(Dma, 0), Event(Dma, 1);
    var m0, m1 := Move(0, 0x80000000, dst0, 4), Move(1, 0x80000004, dst1, 4);
    ProbeSteps(dst0, dst1);
    ProbePlan(dst0, dst1);
    assert 0 in p.eer;
    SignalParts(port, p, b, 0);
    assert EventPlan(p, 0) == PlanOf(s, [e0], 0);
    var t := Completed(s, e0, 0);
    assert SetOf(s, e0) == 0 && SetOf(t, e1) == 1 && e0 in [e0] && e1 in [e1] && [e0][1..] + [e1] == [e1];
    hide Valid, ValidParam, Completed, OwnMoves, SetsOff, Latched, Probe, BusOk, Carry, PlanOf, EventPlan, Signal, Rehearses;
    ServiceIsPlan(port, s, b, [e0], 0, false);
    CarryConcat(port, b, [m0], [m1], false);
    assert [m0] + [m1] == [m0, m1];
    CarryOwn(port, b, s, 0, [], true);
    CarryOwn(port, b1, t, 1, [], true);
    CarryNone(port, b1, true);
    assert [m0] + [] == [m0] && [m1] + [] == [m1];
    hide Transfer;
    assert Service(port, t, b1, [e1], 1, true) == Run(false, t, b1);
    assert Service(port, s, b, [e0], 0, true) == Service(port, t, b1, [e1], 1, true);
  }

  /** What a misled trigger has already changed when it is refused: the first set is spent and the second is latched. */
  ghost predicate Misled<D>(port: Port<D>, s: Engine, b: Bus<D>, channel: nat)
    requires Valid(s) && BusOk(b)
  {
    var r := Signal(port, s, b, channel);
    && Rehearses(port, s, b, channel) && !r.ok
    && channel < |r.engine.param| == |s.param| && s.param[channel] != r.engine.param[channel] == NULL_SET
    && r.engine.cer != s.cer && r.engine.requests == s.requests + 1
  }

  lemma MisledNow<D>(port: Port<D>, dst0: nat, dst1: nat, b: Bus<D>, b1: Bus<D>)
    requires dst0 < WORD && dst1 < WORD && BusOk(b) && Valid(Probe(dst0, dst1)) && Rehearses(port, Probe(dst0, dst1), b, 0)
    requires Signal(port, Probe(dst0, dst1), b, 0) == Run(false, Completed(Latched(Probe(dst0, dst1), 0), Event(Dma, 0), 0), b1)
    ensures Misled(port, Probe(dst0, dst1), b, 0)
  {
    ProbeSteps(dst0, dst1);
    assert Probe(dst0, dst1).param[0] == OneWord(CHAIN_TO_1, 0x80000000, dst0) != NULL_SET && Probe(dst0, dst1).cer == {};
    hide Signal, Rehearses, Completed, Valid, ValidParam, OwnMoves, SetsOff;
  }

  lemma ProbeOutside(c: Config, dst0: nat, dst1: nat, at: iset<nat>)
    requires dst0 < WORD && dst1 < WORD && Valid(Probe(dst0, dst1))
    requires (Span(c, dst0, 4).Some? || dst0 in at) && (Span(c, dst1, 4).Some? || dst1 in at)
    ensures Outside(c, EventPlan(Probe(dst0, dst1), 0).moves) <= at
  {
    ProbePlan(dst0, dst1);
    hide Probe, Valid, EventPlan, Span;
  }

  lemma SecondOverwritten<D>(b: Bus<D>, w: nat) returns (b1: Bus<D>)
    requires BusOk(b) && b.store.Direct? && w < WORD && b.store.bytes[SHARED_AT..SHARED_AT + 4] == Bytes4(w)
    ensures b1 == b.(store := Put(b.store, SHARED_AT + 4, Bytes4(w))) && BusOk(b1)
    ensures Read(b1, 0x80000000, 4) == Read(b1, 0x80000004, 4) == Some(Bytes4(w))
  {
    var m := Poke(b.store.bytes, Write(SHARED_AT + 4, Bytes4(w)));
    b1 := b.(store := Direct(m));
    assert m[SHARED_AT..SHARED_AT + 4] == b.store.bytes[SHARED_AT..SHARED_AT + 4];
    assert m[SHARED_AT + 4..SHARED_AT + 8] == Bytes4(w);
    hide Bytes4, Span, Poke;
    SourceWords(b1, w, w);
  }

  /**
   A peripheral that takes one word and not another: the first transfer of the event replaces
   the one in memory by the other, and the second is refused what the rehearsal had seen taken.
   */
  lemma Overwritten<D>(port: Port<D>, c: Config, d: D, a: nat, v: nat, w: nat) returns (s: Engine, b: Bus<D>)
    requires a < WORD && v < WORD && w < WORD && Span(c, a, 4).None?
    requires port.write(d, a, v).Some? && port.write(d, a, w).None?
    ensures Valid(s) && BusOk(b) && b.config == c && b.device == d && Outside(c, EventPlan(s, 0).moves) <= iset{a}
    ensures Misled(port, s, b, 0)
    ensures Read(b, 0x80000004, 4) == Some(Bytes4(v)) && Read(Signal(port, s, b, 0).bus, 0x80000004, 4) == Some(Bytes4(w))
  {
    s, b := Probe(0x80000004, a), Bus(c, Direct(TwoWords(w, v)), d);
    ProbeValid(0x80000004, a);
    SourceWords(b, w, v);
    ProbeOutside(c, 0x80000004, a, iset{a});
    hide Bytes4, TwoWords, Span, Read, Probe, Valid, Poke, Outside, EventPlan, Misled;
    var b1 := SecondOverwritten(b, w);
    WordToMemory(port, b, Move(0, 0x80000000, 0x80000004, 4), w);
    WordToPort(port, b, Move(1, 0x80000004, a, 4), v, false);
    WordToPort(port, b1, Move(1, 0x80000004, a, 4), w, true);
    hide Carry;
    ProbeMisled(port, 0x80000004, a, b, b1);
    MisledNow(port, 0x80000004, a, b, b1);
  }

  /** A peripheral that one word uses up: the event's first transfer is that word, and its second is refused. */
  lemma Spent<D>(port: Port<D>, c: Config, d: D, a: nat, v: nat, x: nat, w: nat) returns (s: Engine, b: Bus<D>)
    requires a < WORD && v < WORD && x < WORD && w < WORD && Span(c, a, 4).None? && Span(c, x, 4).None?
    requires port.write(d, a, v).Some? && port.write(d, x, w).Some? && port.write(port.write(d, a, v).value, x, w).None?
    ensures Valid(s) && BusOk(b) && b.config == c && b.device == d && Outside(c, EventPlan(s, 0).moves) <= iset{a, x}
    ensures Misled(port, s, b, 0) && Signal(port, s, b, 0).bus == b.(device := port.write(d, a, v).value)
  {
    s, b := Probe(a, x), Bus(c, Direct(TwoWords(v, w)), d);
    var b1 := b.(device := port.write(d, a, v).value);
    ProbeValid(a, x);
    SourceWords(b, v, w);
    SourceWords(b1, v, w);
    ProbeOutside(c, a, x, iset{a, x});
    hide Bytes4, TwoWords, Span, Read, Probe, Valid, Outside, EventPlan, Misled;
    WordToPort(port, b, Move(0, 0x80000000, a, 4), v, false);
    WordToPort(port, b, Move(0, 0x80000000, a, 4), v, true);
    WordToPort(port, b, Move(1, 0x80000004, x, 4), w, false);
    WordToPort(port, b1, Move(1, 0x80000004, x, 4), w, true);
    hide Carry;
    ProbeMisled(port, a, x, b, b1);
    MisledNow(port, a, x, b, b1);
  }

  /** Where a peripheral is not dependable, some event is accepted by its rehearsal and refused by its run. */
  lemma UndependableMisleads<D(!new)>(port: Port<D>, c: Config, at: iset<nat>)
    requires (forall a | a in at :: a < WORD && Span(c, a, 4).None?) && !Dependable(port, at)
    ensures !PreviewDecides(port, c, at)
  {
    hide *;
    var d0, d1 := NotDependable(port, at);
    var x, y, w := NotOpen(port, at, d0, d1.0);
    if d1.1.None? {
      var s, b := Overwritten(port, c, d0, x, y, w);
      Denies(port, c, at, iset{x}, s, b);
    } else {
      var (a, v) := d1.1.value;
      OpenTakes(port, at, d0, x, y, w);
      var s, b := Spent(port, c, d0, a, v, x, w);
      Denies(port, c, at, iset{a, x}, s, b);
    }
  }

  lemma OpenTakes<D(!new)>(port: Port<D>, at: iset<nat>, d: D, a: nat, v: nat, w: nat)
    requires AsOpen(port, at, d, d) && a in at && v < WORD && w < WORD && port.write(d, a, v).Some?
    ensures port.write(d, a, w).Some?
  {
  }

  lemma NotOpen<D(!new)>(port: Port<D>, at: iset<nat>, d0: D, d1: D) returns (a: nat, v: nat, w: nat)
    requires !AsOpen(port, at, d0, d1)
    ensures a in at && v < WORD && w < WORD && port.write(d0, a, v).Some? && port.write(d1, a, w).None?
  {
    a, v, w :| a in at && v < WORD && w < WORD && port.write(d0, a, v).Some? && port.write(d1, a, w).None?;
  }

  /** The state from which, and the one at which or the write after which, a peripheral is not as open as it was. */
  lemma NotDependable<D(!new)>(port: Port<D>, at: iset<nat>) returns (d0: D, d1: (D, Option<(nat, nat)>))
    requires !Dependable(port, at)
    ensures !AsOpen(port, at, d0, d1.0)
    ensures match d1.1
            case None => d1.0 == d0
            case Some(p) => p.0 in at && p.1 < WORD && port.write(d0, p.0, p.1) == Some(d1.0) && AsOpen(port, at, d0, d0)
  {
    if d :| !AsOpen(port, at, d, d) {
      d0, d1 := d, (d, None);
    } else {
      var d, a: nat, v: nat :| a in at && v < WORD && port.write(d, a, v).Some? && !AsOpen(port, at, d, port.write(d, a, v).value);
      assert AsOpen(port, at, d, d);
      hide AsOpen;
      d0, d1 := d, (port.write(d, a, v).value, Some((a, v)));
    }
  }

  lemma Denies<D(!new)>(port: Port<D>, c: Config, at: iset<nat>, some: iset<nat>, s: Engine, b: Bus<D>)
    requires Valid(s) && BusOk(b) && b.config == c && Outside(c, EventPlan(s, 0).moves) <= some <= at && Misled(port, s, b, 0)
    ensures !PreviewDecides(port, c, at)
  {
    hide Valid, BusOk, Outside, EventPlan, Rehearses, Signal;
  }

  /**
   Exactly when rehearsals decide.  For any set of peripheral addresses: every event that
   passes its rehearsal and writes outside memory only there is served, if and only if the
   peripherals are dependable there.
   */
  lemma PreviewDecidesExactly<D(!new)>(port: Port<D>, c: Config, at: iset<nat>)
    requires forall a | a in at :: a < WORD && Span(c, a, 4).None?
    ensures PreviewDecides(port, c, at) <==> Dependable(port, at)
  {
    if Dependable(port, at) {
      DependableDecides(port, c, at);
    } else {
      UndependableMisleads(port, c, at);
    }
  }

  const MCASP_LATCH: nat := 0x01d00004

  /**
   The McASP's undocumented latch at offset 04 takes the word 1 and no other.  An enabled event
   that first overwrites the 1 in memory and then moves that word to the latch is rehearsed on
   the 1, accepted, and refused with its first transfer done; what makes a refusal whole on
   this board is that the trial copies are then discarded.
   */
  lemma LatchMisleads<D>(port: Port<D>, c: Config, d: D) returns (s: Engine, b: Bus<D>)
    requires forall v: nat | v < WORD :: port.write(d, MCASP_LATCH, v).Some? <==> v == 1
    ensures Valid(s) && BusOk(b) && b.config == c && b.device == d && Misled(port, s, b, 0)
    ensures Outside(c, EventPlan(s, 0).moves) <= iset{MCASP_LATCH}
    ensures Read(b, 0x80000004, 4) == Some(Bytes4(1)) && Read(Signal(port, s, b, 0).bus, 0x80000004, 4) == Some(Bytes4(0))
  {
    assert Span(c, MCASP_LATCH, 4).None?;
    assert port.write(d, MCASP_LATCH, 1).Some? && port.write(d, MCASP_LATCH, 0).None?;
    s, b := Overwritten(port, c, d, MCASP_LATCH, 1, 0);
  }
}
