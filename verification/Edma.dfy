/**
 The EDMA3 engine of the C6747 (SPRUH91D chapter 16): PaRAM sets of eight words, event
 registers, and transfers that are completed at once, with linking and chaining, either for
 real or as a preview.  The 32-bit event registers are sets of channel numbers.
 */
module Edma {
  import opened Common
  import opened Memory

  const WORD: nat := 0x1_0000_0000
  const CHANNELS: nat := 32
  const QCHANNELS: nat := 8
  const PARAMS: nat := 128
  const REGIONS: nat := 4
  const SERVICE_LIMIT: nat := 1048576

  // The option bits, by weight.
  const OPT_SYNCDIM: nat := 0x4
  const OPT_STATIC: nat := 0x8
  const OPT_TCINTEN: nat := 0x100000
  const OPT_ITCINTEN: nat := 0x200000
  const OPT_TCCHEN: nat := 0x400000
  const OPT_ITCCHEN: nat := 0x800000

  /** One PaRAM set: OPT, SRC, A_B_CNT, DST, SRC_DST_BIDX, LINK_BCNTRLD, SRC_DST_CIDX, CCNT. */
  datatype Param = Param(opt: nat, src: nat, cnt: nat, dst: nat, bidx: nat, link: nat, cidx: nat, ccnt: nat) {
    predicate Words() {
      opt < WORD && src < WORD && cnt < WORD && dst < WORD && bidx < WORD && link < WORD && cidx < WORD && ccnt < WORD
    }

    function ACnt(): nat { cnt % 0x10000 }
    function BCnt(): nat { cnt / 0x10000 }
    function CCnt(): nat { ccnt % 0x10000 }
    function Link(): nat { link % 0x10000 }
    function Reload(): nat { link / 0x10000 }
    function SrcB(): int { Signed(bidx % 0x10000) }
    function DstB(): int { Signed(bidx / 0x10000) }
    function SrcC(): int { Signed(cidx % 0x10000) }
    function DstC(): int { Signed(cidx / 0x10000) }
    predicate Bit(weight: nat) requires 0 < weight { opt / weight % 2 == 1 }
    predicate AbSync() { Bit(OPT_SYNCDIM) }
    predicate Static() { Bit(OPT_STATIC) }
    function Tcc(): nat { opt / 0x1000 % 64 }
    predicate Final() { (AbSync() || BCnt() == 1) && CCnt() == 1 }
    predicate Interrupts() { if Final() then Bit(OPT_TCINTEN) else Bit(OPT_ITCINTEN) }
    predicate Chains() { if Final() then Bit(OPT_TCCHEN) else Bit(OPT_ITCCHEN) }
  }

  /** A 16-bit field read as a signed number. */
  function Signed(x: nat): int { if x < 0x8000 then x else x - 0x10000 }

  /** Addresses wrap at 32 bits. */
  function Bump(a: nat, d: int): (r: nat)
    ensures r < WORD
  {
    (a + d) % WORD
  }

  /** Reserved bits clear (0x00f3ff0f may be set), TCC a channel, FWID at most 5. */
  predicate LegalOpt(v: nat) {
    v < 0x0100_0000 && v / 0x40000 % 4 == 0 && v / 16 % 16 == 0 && v / 0x1000 % 64 < CHANNELS && v / 0x100 % 8 <= 5
  }

  predicate LegalQchmap(v: nat) {
    v < 0x1000 && v % 4 == 0 && v / 32 % 512 < PARAMS
  }

  predicate ValidParam(p: Param) {
    && LegalOpt(p.opt) && p.opt % 4 == 0
    && p.ACnt() != 0 && p.BCnt() != 0 && p.CCnt() != 0 && p.ccnt < 0x10000
    && (p.Link() != 0xffff ==> p.Link() % 0x4000 % 32 == 0 && p.Link() % 0x4000 < PARAMS * 32)
  }

  /** The engine's registers. */
  datatype Engine = Engine(
    param: seq<Param>,
    qchmap: seq<nat>,
    drae: seq<set<nat>>, qrae: seq<set<nat>>,
    er: set<nat>, esr: set<nat>, cer: set<nat>, eer: set<nat>, ser: set<nat>,
    qer: set<nat>, qeer: set<nat>, qser: set<nat>,
    ier: set<nat>, ipr: set<nat>,
    notified: set<nat>,
    emr: set<nat>, qemr: set<nat>,
    requests: nat, moved: nat)

  datatype Kind = Dma | Qdma
  datatype Event = Event(kind: Kind, channel: nat)

  /** Every register invariant the engine checks of restored state, for the registers modelled. */
  ghost predicate Valid(s: Engine) {
    && |s.param| == PARAMS && |s.qchmap| == QCHANNELS && |s.drae| == |s.qrae| == REGIONS
    && (forall i | 0 <= i < PARAMS :: ParamOk(s.param[i]))
    && (forall q | 0 <= q < QCHANNELS :: LegalQchmap(s.qchmap[q]))
    && Below(s.er, CHANNELS) && Below(s.esr, CHANNELS) && Below(s.cer, CHANNELS)
    && Below(s.eer, CHANNELS) && Below(s.ser, CHANNELS)
    && Below(s.ier, CHANNELS) && Below(s.ipr, CHANNELS) && Below(s.emr, CHANNELS)
    && Below(s.qer, QCHANNELS) && Below(s.qeer, QCHANNELS) && Below(s.qser, QCHANNELS) && Below(s.qemr, QCHANNELS)
    && Below(s.notified, REGIONS)
  }

  ghost predicate Below(reg: set<nat>, n: nat) { forall c | c in reg :: c < n }

  predicate ParamOk(p: Param) {
    p.Words() && LegalOpt(p.opt) && p.ccnt < 0x10000
  }

  predicate Known(e: Event) {
    e.channel < if e.kind == Dma then CHANNELS else QCHANNELS
  }

  // -------------------------------------------------------------------- the bus

  /**
   A peripheral reachable over the bus, such as the McASP: it takes or refuses a word at an
   address, and may ask for service on an instance (AXEVT).
   */
  datatype Port<!D> = Port(write: (D, nat, nat) -> Option<D>, ready: (D, nat) -> bool, count: (D, nat) -> nat)

  datatype Bus<D> = Bus(config: Config, store: Store, device: D)

  ghost predicate BusOk<D>(b: Bus<D>) { StoreOk(b.store) }

  function Read<D>(b: Bus<D>, address: nat, n: nat): (r: Option<seq<Byte>>)
    requires BusOk(b)
    ensures r.Some? <==> Span(b.config, address, n).Some?
    ensures r.Some? ==> |r.value| == n
  {
    match Span(b.config, address, n)
    case None => None
    case Some(o) => Some(View(b.store, o, n))
  }

  /** Check a write, and with `commit` carry it out. */
  function WriteBytes<D>(port: Port<D>, b: Bus<D>, address: nat, data: seq<Byte>, commit: bool): (r: Option<Bus<D>>)
    requires BusOk(b)
    ensures r.Some? ==> BusOk(r.value) && r.value.config == b.config
  {
    match Span(b.config, address, |data|)
    case Some(o) => Some(if commit then b.(store := Put(b.store, o, data)) else b)
    case None =>
      if |data| != 4 then None
      else match port.write(b.device, address, Little(data))
           case None => None
           case Some(d) => Some(if commit then b.(device := d) else b)
  }

  // ------------------------------------------------------------------ a transfer

  /** The arrays one transfer request moves, as pairs of source and destination address. */
  function Moves(src: nat, dst: nat, srcB: int, dstB: int, arrays: nat): (r: seq<(nat, nat)>)
    ensures |r| == arrays
    decreases arrays
  {
    if arrays == 0 then [] else [(src, dst)] + Moves(Bump(src, srcB), Bump(dst, dstB), srcB, dstB, arrays - 1)
  }

  function MovesOf(p: Param): seq<(nat, nat)> {
    Moves(p.src, p.dst, p.SrcB(), p.DstB(), if p.AbSync() then p.BCnt() else 1)
  }

  datatype Moved<D> = Moved(ok: bool, bus: Bus<D>)

  /** Read, check, and with `commit` write, array after array until one is refused. */
  function Copy<D>(port: Port<D>, b: Bus<D>, moves: seq<(nat, nat)>, n: nat, commit: bool): (r: Moved<D>)
    requires BusOk(b)
    ensures BusOk(r.bus) && r.bus.config == b.config
    ensures !commit ==> r.bus == b
    decreases |moves|
  {
    if moves == [] then Moved(true, b)
    else
      var data := Read(b, moves[0].0, n);
      if data.None? then Moved(false, b)
      else
        var checked := WriteBytes(port, b, moves[0].1, data.value, false);
        if checked.None? then Moved(false, b)
        else if !commit then Copy(port, b, moves[1..], n, commit)
        else
          var written := WriteBytes(port, b, moves[0].1, data.value, true);
          if written.None? then Moved(false, b) else Copy(port, written.value, moves[1..], n, commit)
  }

  function Transfer<D>(port: Port<D>, b: Bus<D>, p: Param, commit: bool): (r: Moved<D>)
    requires BusOk(b)
    ensures BusOk(r.bus) && r.bus.config == b.config
    ensures !commit ==> r.bus == b
  {
    if !ValidParam(p) then Moved(false, b) else Copy(port, b, MovesOf(p), p.ACnt(), commit)
  }

  // -------------------------------------------------------- completing a request

  /** What is left of a set after one request that was not the last: Table 16-3. */
  function Advance(p: Param): Param {
    var cDown := p.ccnt - 1;
    if p.ccnt == 0 then p
    else if p.AbSync() then
      p.(src := Bump(p.src, p.SrcC()), dst := Bump(p.dst, p.DstC()), ccnt := cDown)
    else if p.BCnt() > 1 then
      p.(src := Bump(p.src, p.SrcB()), dst := Bump(p.dst, p.DstB()), cnt := p.ACnt() + (p.BCnt() - 1) * 0x10000)
    else
      p.(src := Bump(p.src, p.SrcC()), dst := Bump(p.dst, p.DstC()),
         cnt := p.ACnt() + p.Reload() * 0x10000, ccnt := cDown)
  }

  const NULL_SET: Param := Param(0, 0, 0, 0, 0, 0xffff, 0, 0)

  predicate Relinks(p: Param) { !p.Static() && p.Final() && p.Link() != 0xffff }

  /** The set as the next trigger will find it. */
  function Updated(param: seq<Param>, set_: nat): Param
    requires set_ < |param| == PARAMS && ValidParam(param[set_])
  {
    var p := param[set_];
    if p.Static() then p
    else if !p.Final() then Advance(p)
    else if p.Link() == 0xffff then NULL_SET
    else param[p.Link() % 0x4000 / 32]
  }

  function SetOf(s: Engine, e: Event): nat
    requires |s.qchmap| == QCHANNELS && Known(e)
  {
    if e.kind == Dma then e.channel else s.qchmap[e.channel] / 32 % 512
  }

  /** The QDMA channels a link into `set_` triggers. */
  function Linked(s: Engine, set_: nat, q: nat): seq<nat>
    requires |s.qchmap| == QCHANNELS && q <= QCHANNELS
    decreases QCHANNELS - q
  {
    if q == QCHANNELS then []
    else (if q in s.qeer && s.qchmap[q] / 32 % 512 == set_ then [q] else []) + Linked(s, set_, q + 1)
  }

  /** A channel latched in `reg` a second time is missed. */
  function Latch(reg: set<nat>, missed: set<nat>, c: nat): (set<nat>, set<nat>) {
    if c in reg then (reg, missed + {c}) else (reg + {c}, missed)
  }

  function LatchAll(reg: set<nat>, missed: set<nat>, cs: seq<nat>): (set<nat>, set<nat>)
    decreases |cs|
  {
    if cs == [] then (reg, missed) else var l := Latch(reg, missed, cs[0]); LatchAll(l.0, l.1, cs[1..])
  }

  function Qdmas(cs: seq<nat>): seq<Event> {
    seq(|cs|, i requires 0 <= i < |cs| => Event(Qdma, cs[i]))
  }

  predicate Pending(s: Engine, r: nat)
    requires r < |s.drae|
  {
    s.ipr * s.ier * s.drae[r] != {}
  }

  /** The regions a completion code newly makes pending. */
  function Newly(s: Engine, tcc: nat): set<nat>
    requires |s.drae| == REGIONS
  {
    set r | 0 <= r < REGIONS && !Pending(s, r) && Pending(s.(ipr := s.ipr + {tcc}), r)
  }

  function Cleared(s: Engine, e: Event): Engine {
    var c := {e.channel};
    if e.kind == Dma then s.(er := s.er - c, esr := s.esr - c, cer := s.cer - c, ser := s.ser - c)
    else s.(qer := s.qer - c, qser := s.qser - c)
  }

  /** The PaRAM update, with the QDMA latches of a link into this set. */
  function Reloaded(s: Engine, set_: nat): Engine
    requires set_ < |s.param| == PARAMS && |s.qchmap| == QCHANNELS && ValidParam(s.param[set_])
  {
    var l := if Relinks(s.param[set_]) then LatchAll(s.qer, s.qemr, Linked(s, set_, 0)) else (s.qer, s.qemr);
    s.(param := s.param[set_ := Updated(s.param, set_)], qer := l.0, qemr := l.1)
  }

  function Raised(s: Engine, tcc: nat): Engine
    requires |s.drae| == REGIONS
  {
    s.(ipr := s.ipr + {tcc}, notified := s.notified + Newly(s, tcc))
  }

  function Chained(s: Engine, tcc: nat): Engine {
    var m := Latch(s.cer, s.emr, tcc);
    s.(cer := m.0, emr := m.1)
  }

  /** Completion interrupt and chaining. */
  function Announced(s: Engine, p: Param): Engine
    requires |s.drae| == REGIONS
  {
    var s1 := if p.Interrupts() then Raised(s, p.Tcc()) else s;
    if p.Chains() then Chained(s1, p.Tcc()) else s1
  }

  /** Completion interrupt, chaining and the counters. */
  function Noted(s: Engine, p: Param): Engine
    requires |s.drae| == REGIONS
  {
    var s2 := Announced(s, p);
    s2.(requests := s2.requests + 1, moved := s2.moved + p.ACnt() * if p.AbSync() then p.BCnt() else 1)
  }

  /** The engine's registers after a request of set `set_` that ran. */
  function Completed(s: Engine, e: Event, set_: nat): Engine
    requires set_ < |s.param| == PARAMS && |s.qchmap| == QCHANNELS && |s.drae| == REGIONS
    requires ValidParam(s.param[set_])
  {
    Noted(Reloaded(Cleared(s, e), set_), s.param[set_])
  }

  /** The events a request sets off: QDMA channels its link triggers, then the chained channel. */
  function SetsOff(s: Engine, set_: nat): seq<Event>
    requires set_ < |s.param| == PARAMS && |s.qchmap| == QCHANNELS
  {
    var p := s.param[set_];
    (if Relinks(p) then Qdmas(Linked(s, set_, 0)) else [])
    + (if p.Chains() then [Event(Dma, p.Tcc())] else [])
  }

  /** A link whose QDMA channels overrun the queue: the last one latched is the one that found it full. */
  function Overrun(s: Engine, set_: nat, room: nat): Engine
    requires set_ < |s.param| == PARAMS && |s.qchmap| == QCHANNELS && ValidParam(s.param[set_])
    requires room < |Linked(s, set_, 0)|
  {
    var l := LatchAll(s.qer, s.qemr, Linked(s, set_, 0)[..room + 1]);
    s.(param := s.param[set_ := Updated(s.param, set_)], qer := l.0, qemr := l.1)
  }

  /**
   The registers of a request that ran when the queue, with `room` places left, cannot take
   all it sets off: the QDMA latches up to the channel that found the queue full, or, when it
   was the chained event that did, everything but the counters.
   */
  function Stopped(s: Engine, e: Event, set_: nat, room: nat): Engine
    requires set_ < |s.param| == PARAMS && |s.qchmap| == QCHANNELS && |s.drae| == REGIONS
    requires ValidParam(s.param[set_])
  {
    var p, s0 := s.param[set_], Cleared(s, e);
    if Relinks(p) && room < |Linked(s0, set_, 0)| then Overrun(s0, set_, room) else Announced(Reloaded(s0, set_), p)
  }

  datatype Run<D> = Run(ok: bool, engine: Engine, bus: Bus<D>)

  /**
   Serve a work list of `pending` events of which `served` have been queued before them; the
   list as a whole may hold no more than SERVICE_LIMIT events.
   */
  function Service<D>(port: Port<D>, s: Engine, b: Bus<D>, pending: seq<Event>, served: nat, commit: bool): (r: Run<D>)
    requires BusOk(b) && Valid(s) && forall e | e in pending :: Known(e)
    requires served + |pending| <= SERVICE_LIMIT
    ensures BusOk(r.bus) && r.bus.config == b.config
    ensures !commit ==> r.bus == b
    ensures r.ok ==> Valid(r.engine)
    decreases SERVICE_LIMIT - served
  {
    if pending == [] then Run(true, s, b)
    else
      var e := pending[0];
      assert e in pending;
      var set_ := SetOf(s, e);
      var t := Transfer(port, b, s.param[set_], commit);
      if !t.ok then Run(false, s, t.bus)
      else
        var s' := Completed(s, e, set_);
        var more := SetsOff(s, set_);
        CompletedValid(s, e, set_);
        if served + |pending| + |more| > SERVICE_LIMIT then
          Run(false, Stopped(s, e, set_, SERVICE_LIMIT - served - |pending|), t.bus)
        else Service(port, s', t.bus, pending[1..] + more, served + 1, commit)
  }

  lemma AdvanceOk(p: Param)
    requires ParamOk(p) && ValidParam(p)
    ensures ParamOk(Advance(p))
  {
  }

  lemma UpdatedOk(param: seq<Param>, set_: nat)
    requires set_ < |param| == PARAMS && ValidParam(param[set_]) && forall i | 0 <= i < PARAMS :: ParamOk(param[i])
    ensures ParamOk(Updated(param, set_))
  {
    var p := param[set_];
    assert ParamOk(p);
    AdvanceOk(p);
    assert ParamOk(NULL_SET);
    assert p.Link() != 0xffff ==> ParamOk(param[p.Link() % 0x4000 / 32]);
    hide ParamOk, Advance, p.Final;
  }

  lemma {:induction false} LinkedBelow(s: Engine, set_: nat, q: nat)
    requires |s.qchmap| == QCHANNELS && q <= QCHANNELS
    ensures forall c | c in Linked(s, set_, q) :: c < QCHANNELS
    decreases QCHANNELS - q
  {
    if q < QCHANNELS {
      LinkedBelow(s, set_, q + 1);
    }
  }

  lemma {:induction false} LatchAllBelow(reg: set<nat>, missed: set<nat>, cs: seq<nat>, n: nat)
    requires Below(reg, n) && Below(missed, n) && forall c | c in cs :: c < n
    ensures Below(LatchAll(reg, missed, cs).0, n) && Below(LatchAll(reg, missed, cs).1, n)
    decreases |cs|
  {
    if cs != [] {
      var l := Latch(reg, missed, cs[0]);
      assert cs[0] in cs && Below(l.0, n) && Below(l.1, n);
      assert forall c | c in cs[1..] :: c in cs;
      LatchAllBelow(l.0, l.1, cs[1..], n);
    }
  }

  lemma {:induction false} SameLinked(s: Engine, t: Engine, set_: nat, q: nat)
    requires s.qchmap == t.qchmap && s.qeer == t.qeer && |s.qchmap| == QCHANNELS && q <= QCHANNELS
    ensures Linked(s, set_, q) == Linked(t, set_, q)
    decreases QCHANNELS - q
  {
    if q < QCHANNELS {
      SameLinked(s, t, set_, q + 1);
    }
  }

  lemma ReloadedValid(s: Engine, set_: nat)
    requires Valid(s) && set_ < PARAMS && ValidParam(s.param[set_])
    ensures Valid(Reloaded(s, set_))
  {
    LinkedBelow(s, set_, 0);
    UpdatedOk(s.param, set_);
    LatchAllBelow(s.qer, s.qemr, Linked(s, set_, 0), QCHANNELS);
    hide Linked, LatchAll, Updated, LegalQchmap, ParamOk, Relinks, Below, ValidParam;
  }

  lemma RaisedValid(s: Engine, tcc: nat)
    requires Valid(s) && tcc < CHANNELS
    ensures Valid(Raised(s, tcc)) && Valid(Chained(s, tcc))
  {
    hide LegalQchmap, ParamOk, Pending;
    assert Below(s.ipr + {tcc}, CHANNELS) && Below(s.notified + Newly(s, tcc), REGIONS);
    assert Below(Latch(s.cer, s.emr, tcc).0, CHANNELS) && Below(Latch(s.cer, s.emr, tcc).1, CHANNELS);
    hide Newly, Latch, Below;
  }

  lemma ClearedValid(s: Engine, e: Event)
    requires Valid(s)
    ensures Valid(Cleared(s, e))
  {
    hide LegalQchmap, ParamOk;
  }

  lemma NotedValid(s: Engine, p: Param)
    requires Valid(s) && p.Tcc() < CHANNELS
    ensures Valid(Noted(s, p))
  {
    RaisedValid(s, p.Tcc());
    var s1 := if p.Interrupts() then Raised(s, p.Tcc()) else s;
    RaisedValid(s1, p.Tcc());
    var s2 := if p.Chains() then Chained(s1, p.Tcc()) else s1;
    CountersFree(s2, Noted(s, p).requests, Noted(s, p).moved);
    assert s2 == Announced(s, p);
    hide Valid, Raised, Chained, Announced, p.Chains, p.Interrupts, p.Tcc, p.AbSync, p.ACnt, p.BCnt;
  }

  lemma CountersFree(s: Engine, requests: nat, moved: nat)
    requires Valid(s)
    ensures Valid(s.(requests := requests, moved := moved))
  {
    hide LegalQchmap, ParamOk, Below;
  }

  lemma SetsOffKnown(s: Engine, set_: nat)
    requires |s.param| == PARAMS && |s.qchmap| == QCHANNELS && set_ < PARAMS && s.param[set_].Tcc() < CHANNELS
    ensures forall x | x in SetsOff(s, set_) :: Known(x)
  {
    LinkedBelow(s, set_, 0);
    hide Linked, Relinks, s.param[set_].Chains;
    var linked := Linked(s, set_, 0);
    forall i | 0 <= i < |linked| ensures Known(Qdmas(linked)[i]) {
      assert linked[i] in linked;
    }
  }

  /** What one completed request leaves is a legal set of registers, and the events it sets off exist. */
  lemma CompletedValid(s: Engine, e: Event, set_: nat)
    requires Valid(s) && Known(e) && set_ < PARAMS && ValidParam(s.param[set_])
    ensures Valid(Completed(s, e, set_))
    ensures forall x | x in SetsOff(s, set_) :: Known(x)
  {
    ClearedValid(s, e);
    assert Cleared(s, e).param == s.param && s.param[set_].Tcc() < CHANNELS;
    ReloadedValid(Cleared(s, e), set_);
    NotedValid(Reloaded(Cleared(s, e), set_), s.param[set_]);
    SetsOffKnown(s, set_);
  }

  // ------------------------------------------------------------------- triggers

  function Latched(s: Engine, channel: nat): (r: Engine)
    ensures Valid(s) && channel < CHANNELS ==> Valid(r)
  {
    var l := Latch(s.er, s.emr, channel);
    s.(er := l.0, emr := l.1)
  }

  /** A peripheral event: latched while its channel is disabled, else previewed and then served. */
  function Signal<D>(port: Port<D>, s: Engine, b: Bus<D>, channel: nat): (r: Run<D>)
    requires BusOk(b) && Valid(s)
    ensures BusOk(r.bus) && r.bus.config == b.config
    ensures r.ok ==> Valid(r.engine)
  {
    if channel >= CHANNELS then Run(false, s, b)
    else if channel !in s.eer then Run(true, s.(er := s.er + {channel}), b)
    else
      var s1, e := Latched(s, channel), Event(Dma, channel);
      if !Service(port, s1, b, [e], 0, false).ok then Run(false, s, b)
      else Service(port, s1, b, [e], 0, true)
  }

  /** Whether an event gets past its rehearsal. */
  ghost predicate Rehearses<D>(port: Port<D>, s: Engine, b: Bus<D>, channel: nat)
    requires Valid(s) && BusOk(b)
  {
    channel < CHANNELS
    && (channel in s.eer ==> Service(port, Latched(s, channel), b, [Event(Dma, channel)], 0, false).ok)
  }

  lemma SignalParts<D>(port: Port<D>, s: Engine, b: Bus<D>, channel: nat)
    requires Valid(s) && BusOk(b) && channel < CHANNELS && channel in s.eer
    ensures Valid(Latched(s, channel)) && forall e | e in [Event(Dma, channel)] :: Known(e)
    ensures var l, e := Latched(s, channel), Event(Dma, channel);
            && Rehearses(port, s, b, channel) == Service(port, l, b, [e], 0, false).ok
            && Signal(port, s, b, channel) ==
               if Rehearses(port, s, b, channel) then Service(port, l, b, [e], 0, true) else Run(false, s, b)
  {
    hide Service, ParamOk, LegalQchmap;
  }

  datatype Reg = ECR | ESR | EECR | EESR | SECR | IECR | IESR | ICR | IEVAL | QEECR | QEESR | QSECR

  /** A decoded register write; `region` is the shadow view it comes through, if any. */
  datatype Access =
    | ParamWords(set_: nat, word: nat, words: seq<nat>)
    | QchmapWord(q: nat, v: nat)
    | ChannelReg(region: Option<nat>, reg: Reg, value: set<nat>)

  ghost predicate Decoded(a: Access) {
    match a
    case ParamWords(set_, word, words) =>
      set_ < PARAMS && 1 <= |words| <= 2 && word + |words| <= 8 && forall w | w in words :: w < WORD
    case QchmapWord(q, v) => q < QCHANNELS && v < WORD
    case ChannelReg(region, _, value) => (region.Some? ==> region.value < REGIONS) && Below(value, 32)
  }

  function SetWord(p: Param, w: nat, v: nat): Param {
    if w == 0 then p.(opt := v) else if w == 1 then p.(src := v) else if w == 2 then p.(cnt := v)
    else if w == 3 then p.(dst := v) else if w == 4 then p.(bidx := v) else if w == 5 then p.(link := v)
    else if w == 6 then p.(cidx := v) else p.(ccnt := v)
  }

  function SetWords(p: Param, w: nat, vs: seq<nat>): Param
    decreases |vs|
  {
    if vs == [] then p else SetWords(SetWord(p, w, vs[0]), w + 1, vs[1..])
  }

  predicate LegalWords(w: nat, vs: seq<nat>) {
    forall i | 0 <= i < |vs| :: (w + i == 0 ==> LegalOpt(vs[i])) && (w + i == 7 ==> vs[i] < 0x10000)
  }

  /** The enabled QDMA channels mapped to `set_` whose trigger word is one of those written. */
  function Triggered(s: Engine, set_: nat, word: nat, n: nat, q: nat): seq<nat>
    requires |s.qchmap| == QCHANNELS && q <= QCHANNELS
    decreases QCHANNELS - q
  {
    if q == QCHANNELS then []
    else
      var m := s.qchmap[q];
      (if q in s.qeer && m / 32 % 512 == set_ && word <= m / 4 % 8 < word + n then [q] else [])
      + Triggered(s, set_, word, n, q + 1)
  }

  function Channels(d: set<nat>, c: nat): seq<Event>
    requires c <= CHANNELS
    decreases CHANNELS - c
  {
    if c == CHANNELS then [] else (if c in d then [Event(Dma, c)] else []) + Channels(d, c + 1)
  }

  /** Preview `events` from `trial`; if that succeeds and `commit` is set, serve them from `actual`. */
  function Attempt<D>(port: Port<D>, s: Engine, trial: Engine, actual: Engine, b: Bus<D>, events: seq<Event>, commit: bool)
    : (r: Run<D>)
    requires BusOk(b) && Valid(s) && Valid(trial) && Valid(actual)
    requires |events| <= CHANNELS && forall e | e in events :: Known(e)
    ensures BusOk(r.bus) && r.bus.config == b.config
    ensures r.ok ==> Valid(r.engine)
    ensures !commit ==> r.bus == b && r.engine == s
  {
    if !Service(port, trial, b, events, 0, false).ok then Run(false, s, b)
    else if !commit then Run(true, s, b)
    else Service(port, actual, b, events, 0, true)
  }

  function ToSet(cs: seq<nat>): set<nat> { set c | c in cs }

  function WriteParam<D>(port: Port<D>, s: Engine, b: Bus<D>, a: Access, commit: bool): (r: Run<D>)
    requires BusOk(b) && Valid(s) && Decoded(a) && a.ParamWords?
    ensures BusOk(r.bus) && r.bus.config == b.config
    ensures r.ok ==> Valid(r.engine)
    ensures !commit ==> r.bus == b && r.engine == s
  {
    if !LegalWords(a.word, a.words) then Run(false, s, b)
    else
      var trial := s.(param := s.param[a.set_ := SetWords(s.param[a.set_], a.word, a.words)]);
      var matches := Triggered(s, a.set_, a.word, |a.words|, 0);
      var actual := trial.(qer := trial.qer + ToSet(matches));
      WriteParamValid(s, a);
      Attempt(port, s, trial, actual, b, Qdmas(matches), commit)
  }

  /** The bits of a channel register write that its view lets through. */
  function Masked(s: Engine, region: Option<nat>, q: bool, value: set<nat>): set<nat>
    requires |s.drae| == |s.qrae| == REGIONS && (region.Some? ==> region.value < REGIONS)
  {
    match region
    case None => if q then set c | c in value && c < QCHANNELS else value
    case Some(r) => if q then set c | c in value && c in s.qrae[r] && c < QCHANNELS else value * s.drae[r]
  }

  predicate Triggers(a: Access) {
    a.ParamWords? || (a.ChannelReg? && (a.reg == ESR || a.reg == EESR))
  }

  /** The channel registers whose writes set nothing in motion. */
  function PlainWrite(s: Engine, region: Option<nat>, reg: Reg, value: set<nat>): Engine
    requires |s.drae| == |s.qrae| == REGIONS && (region.Some? ==> region.value < REGIONS)
  {
    var d, q := Masked(s, region, false, value), Masked(s, region, true, value);
    match reg
    case ECR => s.(er := s.er - d)
    case EECR => s.(eer := s.eer - d)
    case SECR => s.(ser := s.ser - d)
    case IECR => s.(ier := s.ier - d)
    case IESR => s.(ier := s.ier + d)
    case ICR => s.(ipr := s.ipr - d)
    case IEVAL =>
      if value == {0} && region.Some? && Pending(s, region.value) then s.(notified := s.notified + {region.value}) else s
    case QEECR => s.(qeer := s.qeer - q)
    case QEESR => s.(qeer := s.qeer + q)
    case QSECR => s.(qser := s.qser - q)
    case ESR => s
    case EESR => s
  }

  predicate IsQdmaReg(reg: Reg) { reg == QEECR || reg == QEESR || reg == QSECR }

  /** Whether the value of a plain channel register write is accepted. */
  predicate Accepts(reg: Reg, value: set<nat>) {
    if reg == IEVAL then value <= {0}
    else if IsQdmaReg(reg) then forall c | c in value :: c < QCHANNELS
    else true
  }

  function WriteReg<D>(port: Port<D>, s: Engine, b: Bus<D>, a: Access, commit: bool): (r: Run<D>)
    requires BusOk(b) && Valid(s) && Decoded(a)
    ensures BusOk(r.bus) && r.bus.config == b.config
    ensures r.ok ==> Valid(r.engine)
    ensures !commit ==> r.bus == b && r.engine == s
  {
    match a
    case ParamWords(_, _, _) => WriteParam(port, s, b, a, commit)
    case QchmapWord(q, v) =>
      if !LegalQchmap(v) then Run(false, s, b)
      else Run(true, if commit then s.(qchmap := s.qchmap[q := v]) else s, b)
    case ChannelReg(region, reg, value) =>
      var d := Masked(s, region, false, value);
      ChannelsKnown(d, 0);
      ChannelsKnown(d * s.er, 0);
      ChannelRegValid(s, a);
      if reg == ESR then
        var s1 := s.(esr := s.esr + d);
        Attempt(port, s, s1, s1, b, Channels(d, 0), commit)
      else if reg == EESR then
        var s1 := s.(eer := s.eer + d);
        Attempt(port, s, s1, s1, b, Channels(d * s.er, 0), commit)
      else if IsQdmaReg(reg) then
        // The registers change on a commit even where the value is then refused.
        Run(Accepts(reg, value), if commit then PlainWrite(s, region, reg, value) else s, b)
      else if !Accepts(reg, value) then Run(false, s, b)
      else Run(true, if commit then PlainWrite(s, region, reg, value) else s, b)
  }

  // --------------------------------------------------- the writes keep validity

  lemma {:induction false} TriggeredBelow(s: Engine, set_: nat, word: nat, n: nat, q: nat)
    requires |s.qchmap| == QCHANNELS && q <= QCHANNELS
    ensures |Triggered(s, set_, word, n, q)| <= QCHANNELS - q
    ensures forall c | c in Triggered(s, set_, word, n, q) :: c < QCHANNELS
    decreases QCHANNELS - q
  {
    if q < QCHANNELS {
      TriggeredBelow(s, set_, word, n, q + 1);
    }
  }

  lemma {:induction false} ChannelsKnown(d: set<nat>, c: nat)
    requires c <= CHANNELS
    ensures |Channels(d, c)| <= CHANNELS - c
    ensures forall e | e in Channels(d, c) :: Known(e) && e.kind == Dma && e.channel in d
    decreases CHANNELS - c
  {
    if c < CHANNELS {
      ChannelsKnown(d, c + 1);
    }
  }

  lemma {:induction false} SetWordsOk(p: Param, w: nat, vs: seq<nat>)
    requires ParamOk(p) && LegalWords(w, vs) && w + |vs| <= 8 && forall v | v in vs :: v < WORD
    ensures ParamOk(SetWords(p, w, vs))
    decreases |vs|
  {
    if vs != [] {
      assert (w + 0 == 0 ==> LegalOpt(vs[0])) && (w + 0 == 7 ==> vs[0] < 0x10000) && vs[0] in vs;
      var rest := vs[1..];
      forall i | 0 <= i < |rest|
        ensures (w + 1 + i == 0 ==> LegalOpt(rest[i])) && (w + 1 + i == 7 ==> rest[i] < 0x10000)
      {
        assert rest[i] == vs[i + 1];
      }
      assert forall v | v in rest :: v in vs;
      SetWordsOk(SetWord(p, w, vs[0]), w + 1, rest);
    }
  }

  lemma WriteParamValid(s: Engine, a: Access)
    requires Valid(s) && Decoded(a) && a.ParamWords? && LegalWords(a.word, a.words)
    ensures var trial := s.(param := s.param[a.set_ := SetWords(s.param[a.set_], a.word, a.words)]);
            var matches := Triggered(s, a.set_, a.word, |a.words|, 0);
            && Valid(trial) && Valid(trial.(qer := trial.qer + ToSet(matches)))
            && |Qdmas(matches)| <= CHANNELS && forall e | e in Qdmas(matches) :: Known(e)
  {
    assert ParamOk(s.param[a.set_]);
    SetWordsOk(s.param[a.set_], a.word, a.words);
    TriggeredBelow(s, a.set_, a.word, |a.words|, 0);
    var matches := Triggered(s, a.set_, a.word, |a.words|, 0);
    hide SetWords, Triggered, LegalQchmap, LegalWords, ParamOk;
    assert Below(s.qer + ToSet(matches), QCHANNELS);
    forall i | 0 <= i < |matches| ensures Known(Qdmas(matches)[i]) {
      assert matches[i] in matches;
    }
    hide Below;
  }

  lemma ChannelRegValid(s: Engine, a: Access)
    requires Valid(s) && Decoded(a) && a.ChannelReg?
    ensures var d := Masked(s, a.region, false, a.value);
            Valid(s.(esr := s.esr + d)) && Valid(s.(eer := s.eer + d))
    ensures Valid(PlainWrite(s, a.region, a.reg, a.value))
  {
    var d, q := Masked(s, a.region, false, a.value), Masked(s, a.region, true, a.value);
    assert Below(d, CHANNELS) && Below(q, QCHANNELS);
    hide ParamOk, LegalQchmap, Pending, Masked;
  }
}
