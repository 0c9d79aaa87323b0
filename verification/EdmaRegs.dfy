/**
 What the EDMA engine's registers come to: over a service run, and over any run of accepted
 register writes and peripheral events.
 */
module EdmaRegs {
  import opened Common
  import opened Memory
  import opened Edma
  import opened EdmaPlan

  /** The events a planned run serves, in order. */
  ghost function Served(s: Engine, pending: seq<Event>, served: nat): seq<Event>
    requires Valid(s) && (forall e | e in pending :: Known(e)) && served + |pending| <= SERVICE_LIMIT
    decreases SERVICE_LIMIT - served
  {
    if pending == [] then []
    else
      var e := pending[0];
      assert e in pending;
      var set_ := SetOf(s, e);
      if !ValidParam(s.param[set_]) then []
      else
        var more := SetsOff(s, set_);
        CompletedValid(s, e, set_);
        if served + |pending| + |more| > SERVICE_LIMIT then [e]
        else [e] + Served(Completed(s, e, set_), pending[1..] + more, served + 1)
  }

  function Total(moves: seq<Move>): nat {
    if moves == [] then 0 else moves[0].n + Total(moves[1..])
  }

  /** The enables, the QDMA map and the region views stand; pending codes and missed events only grow. */
  ghost predicate Steady(s: Engine, t: Engine) {
    && t.eer == s.eer && t.ier == s.ier && t.qeer == s.qeer && t.qchmap == s.qchmap && t.drae == s.drae && t.qrae == s.qrae
    && s.ipr <= t.ipr && s.emr <= t.emr && s.qemr <= t.qemr
  }

  /** Every latch of a channel served is clear; every other latch stands. */
  ghost predicate Drained(s: Engine, t: Engine, events: seq<Event>) {
    && (forall c :: c in t.er <==> c in s.er && Event(Dma, c) !in events)
    && (forall c :: c in t.esr <==> c in s.esr && Event(Dma, c) !in events)
    && (forall c :: c in t.cer <==> c in s.cer && Event(Dma, c) !in events)
    && (forall c :: c in t.ser <==> c in s.ser && Event(Dma, c) !in events)
    && (forall q :: q in t.qer <==> q in s.qer && Event(Qdma, q) !in events)
    && (forall q :: q in t.qser <==> q in s.qser && Event(Qdma, q) !in events)
  }

  /** Exactly the regions that were not pending and now are have been notified. */
  ghost predicate Pulsed(s: Engine, t: Engine)
    requires |s.drae| == |t.drae| == REGIONS
  {
    forall r: nat :: r in t.notified <==> r in s.notified || (r < REGIONS && !Pending(s, r) && Pending(t, r))
  }

  ghost predicate Ran(s: Engine, t: Engine, events: seq<Event>, bytes: nat) {
    && |s.drae| == |t.drae| == REGIONS
    && Steady(s, t) && Drained(s, t, events) && Pulsed(s, t)
    && t.requests == s.requests + |events| && t.moved == s.moved + bytes
  }

  // ------------------------------------------------------------ one request

  ghost predicate Ascending(cs: seq<nat>) { forall i, j | 0 <= i < j < |cs| :: cs[i] < cs[j] }

  /** Latching distinct channels: those already latched are missed. */
  lemma {:induction false} LatchAllIs(reg: set<nat>, missed: set<nat>, cs: seq<nat>)
    requires Ascending(cs)
    ensures forall c :: c in LatchAll(reg, missed, cs).0 <==> c in reg || c in cs
    ensures forall c :: c in LatchAll(reg, missed, cs).1 <==> c in missed || (c in cs && c in reg)
    decreases |cs|
  {
    if cs != [] {
      var l := Latch(reg, missed, cs[0]);
      assert forall c :: c in cs <==> c == cs[0] || c in cs[1..];
      assert Ascending(cs[1..]) && cs[0] !in cs[1..];
      hide Ascending;
      LatchAllIs(l.0, l.1, cs[1..]);
    }
  }

  lemma {:induction false} LinkedAscends(s: Engine, set_: nat, from: nat)
    requires |s.qchmap| == QCHANNELS && from <= QCHANNELS
    ensures Ascending(Linked(s, set_, from)) && forall q | q in Linked(s, set_, from) :: from <= q
    decreases QCHANNELS - from
  {
    if from < QCHANNELS {
      var rest := Linked(s, set_, from + 1);
      LinkedAscends(s, set_, from + 1);
      assert forall i | 0 <= i < |rest| :: rest[i] in rest;
    }
  }

  lemma QdmasIs(cs: seq<nat>)
    ensures forall c :: Event(Qdma, c) in Qdmas(cs) <==> c in cs
    ensures forall c :: Event(Dma, c) !in Qdmas(cs)
  {
    forall c | c in cs ensures Event(Qdma, c) in Qdmas(cs) {
      var i :| 0 <= i < |cs| && cs[i] == c;
      assert Qdmas(cs)[i] == Event(Qdma, c);
    }
  }

  /** What a request sets off and what it latches are the same channels, and those latched already are missed. */
  ghost predicate Stepped(s: Engine, t: Engine, e: Event, more: seq<Event>) {
    && (forall c :: c in t.er <==> c in s.er && Event(Dma, c) != e)
    && (forall c :: c in t.esr <==> c in s.esr && Event(Dma, c) != e)
    && (forall c :: c in t.ser <==> c in s.ser && Event(Dma, c) != e)
    && (forall c :: c in t.cer <==> (c in s.cer && Event(Dma, c) != e) || Event(Dma, c) in more)
    && (forall q :: q in t.qer <==> (q in s.qer && Event(Qdma, q) != e) || Event(Qdma, q) in more)
    && (forall q :: q in t.qser <==> q in s.qser && Event(Qdma, q) != e)
    && (forall c :: c in t.emr <==> c in s.emr || (Event(Dma, c) in more && c in s.cer && Event(Dma, c) != e))
    && (forall q :: q in t.qemr <==> q in s.qemr || (Event(Qdma, q) in more && q in s.qer && Event(Qdma, q) != e))
  }

  ghost predicate WasCleared(s: Engine, t: Engine, e: Event) {
    && Stepped(s, t, e, [])
    && t == s.(er := t.er, esr := t.esr, cer := t.cer, ser := t.ser, qer := t.qer, qser := t.qser)
  }

  lemma ClearedSteps(s: Engine, e: Event)
    ensures WasCleared(s, Cleared(s, e), e)
  {
  }

  ghost predicate WasReloaded(s: Engine, t: Engine, linked: seq<nat>) {
    && (forall q :: q in t.qer <==> q in s.qer || q in linked)
    && (forall q :: q in t.qemr <==> q in s.qemr || (q in linked && q in s.qer))
    && t == s.(param := t.param, qer := t.qer, qemr := t.qemr)
  }

  function LinkedBy(s: Engine, set_: nat): seq<nat>
    requires set_ < |s.param| && |s.qchmap| == QCHANNELS
  {
    if Relinks(s.param[set_]) then Linked(s, set_, 0) else []
  }

  lemma ReloadedSteps(s: Engine, set_: nat)
    requires set_ < |s.param| == PARAMS && |s.qchmap| == QCHANNELS && ValidParam(s.param[set_])
    ensures WasReloaded(s, Reloaded(s, set_), LinkedBy(s, set_))
  {
    LinkedAscends(s, set_, 0);
    LatchAllIs(s.qer, s.qemr, Linked(s, set_, 0));
    hide LatchAll, Ascending, Linked, Relinks, Updated, ValidParam;
  }

  ghost predicate WasAnnounced(s: Engine, t: Engine, chained: set<nat>) {
    && |s.drae| == |t.drae| == REGIONS && Pulsed(s, t)
    && (forall c :: c in t.cer <==> c in s.cer || c in chained)
    && (forall c :: c in t.emr <==> c in s.emr || (c in chained && c in s.cer))
    && s.ipr <= t.ipr
    && t == s.(cer := t.cer, emr := t.emr, ipr := t.ipr, notified := t.notified)
  }

  function ChainedBy(p: Param): set<nat> { if p.Chains() then {p.Tcc()} else {} }

  lemma AnnouncedSteps(s: Engine, p: Param)
    requires |s.drae| == REGIONS
    ensures WasAnnounced(s, Announced(s, p), ChainedBy(p))
  {
    var s1 := if p.Interrupts() then Raised(s, p.Tcc()) else s;
    RaisedPulses(s, p.Tcc());
    assert forall r: nat :: r < REGIONS ==> Pending(s1, r) == Pending(Announced(s, p), r);
    hide p.Chains, p.Interrupts, p.Tcc, Pending, Raised;
  }

  lemma RaisedPulses(s: Engine, tcc: nat)
    requires |s.drae| == REGIONS
    ensures var t := Raised(s, tcc);
            t == s.(ipr := s.ipr + {tcc}, notified := t.notified) && Pulsed(s, t) && Pulsed(s, s)
  {
    assert forall r: nat :: r < REGIONS ==> Pending(Raised(s, tcc), r) == Pending(s.(ipr := s.ipr + {tcc}), r);
    hide Pending;
  }

  ghost predicate Off(more: seq<Event>, linked: seq<nat>, chained: set<nat>) {
    && (forall c :: Event(Dma, c) in more <==> c in chained)
    && (forall q :: Event(Qdma, q) in more <==> q in linked)
  }

  lemma SetsOffIs(s: Engine, e: Event, set_: nat)
    requires set_ < |s.param| == PARAMS && |s.qchmap| == QCHANNELS
    ensures Off(SetsOff(s, set_), LinkedBy(Cleared(s, e), set_), ChainedBy(s.param[set_]))
  {
    QdmasIs(Linked(s, set_, 0));
    SameLinked(Cleared(s, e), s, set_, 0);
    hide Linked, Relinks, Qdmas, s.param[set_].Chains, s.param[set_].Tcc;
  }

  /** One request. */
  ghost predicate One(s: Engine, t: Engine, e: Event, more: seq<Event>, bytes: nat) {
    && |s.drae| == |t.drae| == REGIONS
    && Steady(s, t) && Stepped(s, t, e, more) && Pulsed(s, t) && t.requests == s.requests + 1 && t.moved == s.moved + bytes
  }

  function Bytes(p: Param): nat { p.ACnt() * if p.AbSync() then p.BCnt() else 1 }

  lemma CompletedIs(s: Engine, e: Event, set_: nat)
    requires Valid(s) && set_ < PARAMS && ValidParam(s.param[set_])
    ensures One(s, Completed(s, e, set_), e, SetsOff(s, set_), Bytes(s.param[set_]))
  {
    hide *;
    CompletedParts(s, e, set_);
    var p, a := s.param[set_], Cleared(s, e);
    var b := Reloaded(a, set_);
    var c := Announced(b, p);
    ClearedSteps(s, e);
    ReloadedSteps(a, set_);
    AnnouncedSteps(b, p);
    SetsOffIs(s, e, set_);
    Assembled(s, a, b, c, e, SetsOff(s, set_), LinkedBy(a, set_), ChainedBy(p));
    Counted(s, c, Completed(s, e, set_), e, SetsOff(s, set_), Bytes(p));
  }

  lemma CompletedParts(s: Engine, e: Event, set_: nat)
    requires Valid(s) && set_ < PARAMS && ValidParam(s.param[set_])
    ensures |s.param| == PARAMS && |s.qchmap| == QCHANNELS && |s.drae| == REGIONS
    ensures var a := Cleared(s, e);
            && a.param == s.param && a.qchmap == s.qchmap && |Reloaded(a, set_).drae| == REGIONS
            && var c := Announced(Reloaded(a, set_), s.param[set_]);
               Completed(s, e, set_) == c.(requests := c.requests + 1, moved := c.moved + Bytes(s.param[set_]))
  {
    hide Announced, ValidParam, Linked, Updated, LatchAll, Relinks, LegalQchmap, ParamOk, Below;
  }

  /** The four parts of a request put together, but for the counters. */
  ghost predicate Part(s: Engine, t: Engine, e: Event, more: seq<Event>) {
    && |s.drae| == |t.drae| == REGIONS
    && Steady(s, t) && Stepped(s, t, e, more) && Pulsed(s, t) && t.requests == s.requests && t.moved == s.moved
  }

  lemma Assembled(s: Engine, a: Engine, b: Engine, c: Engine, e: Event, more: seq<Event>, linked: seq<nat>, chained: set<nat>)
    requires WasCleared(s, a, e) && WasReloaded(a, b, linked) && WasAnnounced(b, c, chained) && Off(more, linked, chained)
    ensures Part(s, c, e, more)
  {
    PulsedAfter(s, a, b, c);
    AssembledSteps(s, a, b, c, e, more, linked, chained);
    hide Stepped, Pulsed, Off;
  }

  lemma PulsedAfter(s: Engine, a: Engine, b: Engine, c: Engine)
    requires |s.drae| == |b.drae| == |c.drae| == REGIONS && Pulsed(b, c)
    requires b.drae == s.drae && b.ier == s.ier && b.ipr == s.ipr && b.notified == s.notified
    ensures Pulsed(s, c)
  {
  }

  lemma AssembledSteps(s: Engine, a: Engine, b: Engine, c: Engine, e: Event, more: seq<Event>, linked: seq<nat>, chained: set<nat>)
    requires WasCleared(s, a, e) && WasReloaded(a, b, linked) && WasAnnounced(b, c, chained) && Off(more, linked, chained)
    ensures Stepped(s, c, e, more)
  {
    hide Pulsed;
  }

  lemma Counted(s: Engine, c: Engine, t: Engine, e: Event, more: seq<Event>, bytes: nat)
    requires Part(s, c, e, more) && t == c.(requests := c.requests + 1, moved := c.moved + bytes)
    ensures One(s, t, e, more, bytes)
  {
    assert forall r: nat :: r < REGIONS ==> Pending(c, r) == Pending(t, r);
    hide Pending;
  }

  // ------------------------------------------------------------ whole runs

  lemma StepThenRun(s: Engine, u: Engine, t: Engine, e: Event, more: seq<Event>, bytes: nat, events: seq<Event>, rest: nat)
    requires One(s, u, e, more, bytes) && Ran(u, t, events, rest) && forall x | x in more :: x in events
    ensures Ran(s, t, [e] + events, bytes + rest)
  {
    assert forall x :: x in [e] + events <==> x == e || x in events;
    SteadyTwice(s, u, t);
    StepDrains(s, u, t, e, more, events);
    hide Stepped, Drained, Steady, Pending;
  }

  lemma SteadyTwice(s: Engine, u: Engine, t: Engine)
    requires Steady(s, u) && Steady(u, t) && |s.drae| == |t.drae| == REGIONS
    ensures Steady(s, t) && forall r: nat | r < REGIONS :: (Pending(s, r) ==> Pending(u, r)) && (Pending(u, r) ==> Pending(t, r))
  {
    forall r: nat | r < REGIONS
      ensures (Pending(s, r) ==> Pending(u, r)) && (Pending(u, r) ==> Pending(t, r))
    {
      assert s.ipr * s.ier * s.drae[r] <= u.ipr * u.ier * u.drae[r] <= t.ipr * t.ier * t.drae[r];
    }
  }

  lemma StepDrains(s: Engine, u: Engine, t: Engine, e: Event, more: seq<Event>, events: seq<Event>)
    requires Stepped(s, u, e, more) && Drained(u, t, events) && forall x | x in more :: x in events
    ensures Drained(s, t, [e] + events)
  {
    assert forall x :: x in [e] + events <==> x == e || x in events;
  }

  lemma NoneRan(s: Engine)
    requires Valid(s)
    ensures Ran(s, s, [], 0)
  {
    hide Pending, LegalQchmap, ParamOk;
  }

  lemma {:induction false} TotalAdds(a: seq<Move>, b: seq<Move>)
    ensures Total(a + b) == Total(a) + Total(b)
  {
    if a == [] {
      assert a + b == b;
    } else {
      assert (a + b)[1..] == a[1..] + b;
      TotalAdds(a[1..], b);
    }
  }

  lemma {:induction false} TotalTagged(set_: nat, arrays: seq<(nat, nat)>, n: nat)
    ensures Total(Tagged(set_, arrays, n)) == n * |arrays|
    decreases |arrays|
  {
    var m := Tagged(set_, arrays, n);
    if arrays != [] {
      assert m[0].n == n && m[1..] == Tagged(set_, arrays[1..], n);
      TotalTagged(set_, arrays[1..], n);
    }
  }

  lemma OwnTotal(s: Engine, set_: nat)
    requires set_ < |s.param|
    ensures Total(OwnMoves(s, set_)) == Bytes(s.param[set_])
  {
    TotalTagged(set_, MovesOf(s.param[set_]), s.param[set_].ACnt());
    hide Moves, Total, Tagged;
  }

  /** A plan that stands is its first event's request, then the plan of the rest with what that set off. */
  lemma PlanUnrolls(s: Engine, pending: seq<Event>, served: nat)
    requires Valid(s) && (forall e | e in pending :: Known(e)) && 0 < |pending| && served + |pending| <= SERVICE_LIMIT
    requires PlanOf(s, pending, served).ok
    ensures |s.param| == PARAMS && |s.qchmap| == QCHANNELS && |s.drae| == REGIONS
    ensures var e := pending[0];
            && Known(e) && SetOf(s, e) < PARAMS && ValidParam(s.param[SetOf(s, e)])
            && var next, u := pending[1..] + SetsOff(s, SetOf(s, e)), Completed(s, e, SetOf(s, e));
            && Valid(u) && (forall x | x in next :: Known(x)) && served + 1 + |next| <= SERVICE_LIMIT
            && PlanOf(u, next, served + 1).ok
            && PlanOf(s, pending, served).engine == PlanOf(u, next, served + 1).engine
            && PlanOf(s, pending, served).moves == OwnMoves(s, SetOf(s, e)) + PlanOf(u, next, served + 1).moves
            && Served(s, pending, served) == [e] + Served(u, next, served + 1)
  {
    var e := pending[0];
    assert e in pending;
    ServiceSplits(s, e);
    CompletedValid(s, e, SetOf(s, e));
    hide Valid, Completed, Stopped, SetsOff, ValidParam, OwnMoves, Known, SetOf;
  }

  lemma EmptyRan(s: Engine, served: nat)
    requires Valid(s) && served <= SERVICE_LIMIT
    ensures Ran(s, PlanOf(s, [], served).engine, Served(s, [], served), Total(PlanOf(s, [], served).moves))
  {
    NoneRan(s);
    hide Ran, Valid;
  }

  /**
   What a service run that succeeds leaves: every latch of every channel it served is clear,
   chained and linked ones included, and every other latch, every enable and the QDMA map
   stand; a region has been notified exactly if it was not pending before and is after; and
   the counters have grown by the requests served and the bytes moved.
   */
  lemma {:induction false} PlanRan(s: Engine, pending: seq<Event>, served: nat)
    requires Valid(s) && (forall e | e in pending :: Known(e)) && served + |pending| <= SERVICE_LIMIT
    requires PlanOf(s, pending, served).ok
    ensures Ran(s, PlanOf(s, pending, served).engine, Served(s, pending, served), Total(PlanOf(s, pending, served).moves))
    ensures pending <= Served(s, pending, served)
    decreases SERVICE_LIMIT - served
  {
    hide Valid, Completed, Stopped, SetsOff, ValidParam, OwnMoves, Known, SetOf, PlanOf, Served, Ran, One, Total, Bytes;
    if pending == [] {
      EmptyRan(s, served);
    } else {
      var e := pending[0];
      assert e in pending;
      ServiceSplits(s, e);
      var set_ := SetOf(s, e);
      PlanUnrolls(s, pending, served);
      var next, u := pending[1..] + SetsOff(s, set_), Completed(s, e, set_);
      CompletedIs(s, e, set_);
      PlanRan(u, next, served + 1);
      var rest := PlanOf(u, next, served + 1);
      assert forall x | x in SetsOff(s, set_) :: x in next;
      assert pending == [e] + pending[1..];
      StepThenRun(s, u, rest.engine, e, SetsOff(s, set_), Bytes(s.param[set_]), Served(u, next, served + 1), Total(rest.moves));
      OwnTotal(s, set_);
      TotalAdds(OwnMoves(s, set_), rest.moves);
    }
  }

  /** The same of a run over any memory and any peripherals, rehearsed or real. */
  lemma ServiceRan<D>(port: Port<D>, s: Engine, b: Bus<D>, pending: seq<Event>, served: nat, commit: bool)
    requires BusOk(b) && Valid(s) && (forall e | e in pending :: Known(e)) && served + |pending| <= SERVICE_LIMIT
    requires Service(port, s, b, pending, served, commit).ok
    ensures PlanOf(s, pending, served).ok
    ensures Ran(s, Service(port, s, b, pending, served, commit).engine, Served(s, pending, served), Total(PlanOf(s, pending, served).moves))
    ensures pending <= Served(s, pending, served)
  {
    hide Ran, Valid, BusOk, Service, PlanOf, Served, Carry, Total, Known;
    ServiceIsPlan(port, s, b, pending, served, commit);
    PlanRan(s, pending, served);
  }

  // --------------------------------------- runs of register writes and events

  datatype Input = Guest(a: Access) | Happens(channel: nat)

  ghost predicate Legal(x: Input) { x.Guest? ==> Decoded(x.a) }

  function StepOn<D>(port: Port<D>, s: Engine, b: Bus<D>, x: Input): (r: Run<D>)
    requires BusOk(b) && Valid(s) && Legal(x)
    ensures BusOk(r.bus) && (r.ok ==> Valid(r.engine))
  {
    match x
    case Guest(a) => WriteReg(port, s, b, a, true)
    case Happens(channel) => Signal(port, s, b, channel)
  }

  /** Inputs one after another, as long as each is accepted. */
  function RunOn<D>(port: Port<D>, s: Engine, b: Bus<D>, xs: seq<Input>): (r: Run<D>)
    requires BusOk(b) && Valid(s) && forall x | x in xs :: Legal(x)
    ensures r.ok ==> Valid(r.engine)
    decreases |xs|
  {
    if xs == [] then Run(true, s, b)
    else
      assert xs[0] in xs;
      var r := StepOn(port, s, b, xs[0]);
      if r.ok then RunOn(port, r.engine, r.bus, xs[1..]) else r
  }

  datatype Which = Er | Esr | Cer | Eer | Ser | Ier | Ipr | Qer | Qeer | Qser

  function Held(s: Engine, w: Which): set<nat> {
    match w
    case Er => s.er case Esr => s.esr case Cer => s.cer case Eer => s.eer case Ser => s.ser
    case Ier => s.ier case Ipr => s.ipr case Qer => s.qer case Qeer => s.qeer case Qser => s.qser
  }

  /** The register a write port acts on, and whether it sets or clears. */
  function Verb(reg: Reg): Option<(Which, bool)> {
    match reg
    case ECR => Some((Er, false)) case SECR => Some((Ser, false)) case ICR => Some((Ipr, false))
    case EECR => Some((Eer, false)) case EESR => Some((Eer, true))
    case IECR => Some((Ier, false)) case IESR => Some((Ier, true))
    case QEECR => Some((Qeer, false)) case QEESR => Some((Qeer, true)) case QSECR => Some((Qser, false))
    case ESR => Some((Esr, true)) case IEVAL => None
  }

  /** Whether a write through `region` reaches bit `c`: a shadow region reaches only the channels it is given. */
  ghost predicate Through(s: Engine, region: Option<nat>, qdma: bool, c: nat) {
    && (region.Some? ==> region.value < |s.drae| && region.value < |s.qrae|)
    && (region.Some? ==> c in if qdma then s.qrae[region.value] else s.drae[region.value])
  }

  /** What an input says of bit `c` of register `w`, if anything. */
  ghost function Says(s: Engine, x: Input, w: Which, c: nat): Option<bool> {
    if x.Guest? && x.a.ChannelReg? && Verb(x.a.reg).Some? && Verb(x.a.reg).value.0 == w
       && c in x.a.value && Through(s, x.a.region, IsQdmaReg(x.a.reg), c)
    then Some(Verb(x.a.reg).value.1) else None
  }

  /** The last word on it in a run. */
  ghost function LastSays(s: Engine, xs: seq<Input>, w: Which, c: nat): Option<bool> {
    if xs == [] then None
    else
      var later := LastSays(s, xs[1..], w, c);
      if later.Some? then later else Says(s, xs[0], w, c)
  }

  /** A write to a channel register that sets nothing in motion. */
  predicate Plain(x: Input) { x.Guest? && x.a.ChannelReg? && !Triggers(x.a) }

  predicate Enable(w: Which) { w == Eer || w == Ier || w == Qeer }

  ghost predicate Told(held: bool, says: Option<bool>, now: bool) { now == if says.Some? then says.value else held }

  lemma PlainSays(s: Engine, x: Input, w: Which, c: nat)
    requires Valid(s) && Plain(x) && Legal(x) && Accepts(x.a.reg, x.a.value)
    ensures var t := PlainWrite(s, x.a.region, x.a.reg, x.a.value);
            Told(c in Held(s, w), Says(s, x, w, c), c in Held(t, w)) && t.drae == s.drae && t.qrae == s.qrae && t.qchmap == s.qchmap
  {
    hide *;
    MasksSay(s, x, c);
    PlainMoves(s, x, w, c);
  }

  /** What the two masks let through of an accepted write. */
  lemma MasksSay(s: Engine, x: Input, c: nat)
    requires Valid(s) && Plain(x) && Legal(x) && Accepts(x.a.reg, x.a.value)
    ensures x.Guest? && x.a.ChannelReg? && |s.drae| == |s.qrae| == REGIONS && (x.a.region.Some? ==> x.a.region.value < REGIONS)
    ensures !IsQdmaReg(x.a.reg) ==>
              (c in Masked(s, x.a.region, false, x.a.value) <==> c in x.a.value && Through(s, x.a.region, false, c))
    ensures IsQdmaReg(x.a.reg) ==>
              (c in Masked(s, x.a.region, true, x.a.value) <==> c in x.a.value && Through(s, x.a.region, true, c))
  {
    hide LegalQchmap, ParamOk, Pending, Below;
  }

  lemma PlainMoves(s: Engine, x: Input, w: Which, c: nat)
    requires Plain(x) && x.Guest? && x.a.ChannelReg? && |s.drae| == |s.qrae| == REGIONS && (x.a.region.Some? ==> x.a.region.value < REGIONS)
    requires !IsQdmaReg(x.a.reg) ==>
               (c in Masked(s, x.a.region, false, x.a.value) <==> c in x.a.value && Through(s, x.a.region, false, c))
    requires IsQdmaReg(x.a.reg) ==>
               (c in Masked(s, x.a.region, true, x.a.value) <==> c in x.a.value && Through(s, x.a.region, true, c))
    ensures var t := PlainWrite(s, x.a.region, x.a.reg, x.a.value);
            Told(c in Held(s, w), Says(s, x, w, c), c in Held(t, w)) && t.drae == s.drae && t.qrae == s.qrae && t.qchmap == s.qchmap
  {
    hide Masked, Through, Pending;
  }

  lemma PlainSteps<D>(port: Port<D>, s: Engine, b: Bus<D>, x: Input)
    requires BusOk(b) && Valid(s) && Plain(x) && Legal(x) && StepOn(port, s, b, x).ok
    ensures Accepts(x.a.reg, x.a.value)
    ensures StepOn(port, s, b, x).engine == PlainWrite(s, x.a.region, x.a.reg, x.a.value)
  {
    hide Valid, PlainWrite, Attempt, WriteParam, Below, Masked;
  }

  /** Enables, views and the QDMA map alone. */
  ghost predicate SameEnables(s: Engine, t: Engine) {
    t.eer == s.eer && t.ier == s.ier && t.qeer == s.qeer && t.drae == s.drae && t.qrae == s.qrae && t.qchmap == s.qchmap
  }

  lemma ServiceEnables<D>(port: Port<D>, s: Engine, b: Bus<D>, pending: seq<Event>, commit: bool)
    requires BusOk(b) && Valid(s) && (forall e | e in pending :: Known(e)) && |pending| <= SERVICE_LIMIT
    requires Service(port, s, b, pending, 0, commit).ok
    ensures SameEnables(s, Service(port, s, b, pending, 0, commit).engine)
  {
    hide Valid, BusOk, Service, PlanOf, Served, Total, Known, Drained, Pulsed;
    ServiceRan(port, s, b, pending, 0, commit);
  }

  lemma SignalEnables<D>(port: Port<D>, s: Engine, b: Bus<D>, channel: nat)
    requires BusOk(b) && Valid(s) && Signal(port, s, b, channel).ok
    ensures SameEnables(s, Signal(port, s, b, channel).engine)
  {
    if channel < CHANNELS && channel in s.eer {
      SignalParts(port, s, b, channel);
      var l := Latched(s, channel);
      assert SameEnables(s, l);
      hide Valid, BusOk, Service, Latched, Signal, Rehearses, Known;
      ServiceEnables(port, l, b, [Event(Dma, channel)], true);
    } else {
      hide Valid;
    }
  }

  lemma AttemptEnables<D>(port: Port<D>, s: Engine, trial: Engine, actual: Engine, b: Bus<D>, events: seq<Event>)
    requires BusOk(b) && Valid(s) && Valid(trial) && Valid(actual)
    requires |events| <= CHANNELS && (forall e | e in events :: Known(e)) && Attempt(port, s, trial, actual, b, events, true).ok
    ensures SameEnables(actual, Attempt(port, s, trial, actual, b, events, true).engine)
  {
    hide Valid, BusOk, Service, Known, SameEnables;
    ServiceEnables(port, actual, b, events, true);
  }

  lemma ParamEnables<D>(port: Port<D>, s: Engine, b: Bus<D>, a: Access)
    requires BusOk(b) && Valid(s) && Decoded(a) && a.ParamWords? && WriteParam(port, s, b, a, true).ok
    ensures SameEnables(s, WriteParam(port, s, b, a, true).engine)
  {
    hide Valid, BusOk, Known, Attempt, SetWords, Triggered, Qdmas, ToSet, ParamOk, LegalQchmap;
    ParamParts(s, a);
    WriteParamValid(s, a);
    var trial := s.(param := s.param[a.set_ := SetWords(s.param[a.set_], a.word, a.words)]);
    var matches := Triggered(s, a.set_, a.word, |a.words|, 0);
    AttemptEnables(port, s, trial, trial.(qer := trial.qer + ToSet(matches)), b, Qdmas(matches));
  }

  lemma ParamParts(s: Engine, a: Access)
    requires Valid(s) && Decoded(a) && a.ParamWords?
    ensures a.set_ < |s.param| && |s.qchmap| == QCHANNELS
  {
  }

  lemma TriggerEnables<D>(port: Port<D>, s: Engine, b: Bus<D>, a: Access)
    requires BusOk(b) && Valid(s) && Decoded(a) && a.ChannelReg? && Triggers(a) && WriteReg(port, s, b, a, true).ok
    requires |s.drae| == |s.qrae| == REGIONS && (a.region.Some? ==> a.region.value < REGIONS)
    ensures var d := Masked(s, a.region, false, a.value);
            SameEnables(if a.reg == EESR then s.(eer := s.eer + d) else s, WriteReg(port, s, b, a, true).engine)
  {
    var d := Masked(s, a.region, false, a.value);
    ChannelsKnown(d, 0);
    ChannelsKnown(d * s.er, 0);
    ChannelRegValid(s, a);
    hide Valid, BusOk, Known, Attempt, Channels, Masked, PlainWrite, Decoded;
    if a.reg == ESR {
      var s1 := s.(esr := s.esr + d);
      AttemptEnables(port, s, s1, s1, b, Channels(d, 0));
    } else {
      var s1 := s.(eer := s.eer + d);
      AttemptEnables(port, s, s1, s1, b, Channels(d * s.er, 0));
    }
  }

  /** The QDMA map after an input. */
  function Mapping(qchmap: seq<nat>, x: Input): seq<nat> {
    if x.Guest? && x.a.QchmapWord? && x.a.q < |qchmap| then qchmap[x.a.q := x.a.v] else qchmap
  }

  /** What a step does to the enables, as told by its input alone. */
  ghost predicate Obeys(s: Engine, t: Engine, x: Input) {
    && (forall w, c | Enable(w) :: Told(c in Held(s, w), Says(s, x, w, c), c in Held(t, w)))
    && t.drae == s.drae && t.qrae == s.qrae && t.qchmap == Mapping(s.qchmap, x)
  }

  lemma SilentObeys(s: Engine, t: Engine, x: Input)
    requires SameEnables(s, t) && (x.Happens? || x.a.ParamWords? || (x.a.ChannelReg? && x.a.reg == ESR))
    ensures Obeys(s, t, x)
  {
    hide Through;
  }

  lemma EnableObeys(s: Engine, t: Engine, x: Input)
    requires Valid(s) && Legal(x) && x.Guest? && x.a.ChannelReg? && x.a.reg == EESR
    requires |s.drae| == |s.qrae| == REGIONS && (x.a.region.Some? ==> x.a.region.value < REGIONS)
    requires SameEnables(s.(eer := s.eer + Masked(s, x.a.region, false, x.a.value)), t)
    ensures Obeys(s, t, x)
  {
    hide Valid;
  }

  lemma StepObeys<D>(port: Port<D>, s: Engine, b: Bus<D>, x: Input)
    requires BusOk(b) && Valid(s) && Legal(x) && StepOn(port, s, b, x).ok
    ensures Obeys(s, StepOn(port, s, b, x).engine, x)
  {
    var t := StepOn(port, s, b, x).engine;
    hide Valid, BusOk, Obeys, Signal, WriteParam, Attempt, PlainWrite, SameEnables, LegalQchmap, Masked;
    if x.Happens? {
      SignalEnables(port, s, b, x.channel);
      SilentObeys(s, t, x);
    } else if x.a.ParamWords? {
      ParamEnables(port, s, b, x.a);
      SilentObeys(s, t, x);
    } else if x.a.QchmapWord? {
      MapObeys(port, s, b, x);
    } else if Plain(x) {
      PlainSteps(port, s, b, x);
      PlainObeys(s, x);
    } else {
      RegionFits(s, x.a);
      TriggerEnables(port, s, b, x.a);
      if x.a.reg == ESR {
        SilentObeys(s, t, x);
      } else {
        EnableObeys(s, t, x);
      }
    }
  }

  lemma MapObeys<D>(port: Port<D>, s: Engine, b: Bus<D>, x: Input)
    requires BusOk(b) && Valid(s) && Legal(x) && x.Guest? && x.a.QchmapWord? && StepOn(port, s, b, x).ok
    ensures Obeys(s, StepOn(port, s, b, x).engine, x)
  {
    hide LegalQchmap, ParamOk, Attempt, WriteParam, Below, Through;
  }

  lemma RegionFits(s: Engine, a: Access)
    requires Valid(s) && Decoded(a) && a.ChannelReg?
    ensures |s.drae| == |s.qrae| == REGIONS && (a.region.Some? ==> a.region.value < REGIONS)
  {
  }

  lemma PlainObeys(s: Engine, x: Input)
    requires Valid(s) && Plain(x) && Legal(x) && Accepts(x.a.reg, x.a.value)
    requires |s.drae| == |s.qrae| == REGIONS && (x.a.region.Some? ==> x.a.region.value < REGIONS)
    ensures Obeys(s, PlainWrite(s, x.a.region, x.a.reg, x.a.value), x)
  {
    hide Valid, PlainWrite, Says, Told, Held, Legal, Accepts, Triggers;
    PlainSays(s, x, Er, 0);
    forall w, c
      ensures var t := PlainWrite(s, x.a.region, x.a.reg, x.a.value);
              Told(c in Held(s, w), Says(s, x, w, c), c in Held(t, w)) && t.drae == s.drae && t.qrae == s.qrae && t.qchmap == s.qchmap
    {
      PlainSays(s, x, w, c);
    }
  }

  lemma StepTold<D>(port: Port<D>, s: Engine, b: Bus<D>, x: Input, w: Which, c: nat)
    requires BusOk(b) && Valid(s) && Legal(x) && StepOn(port, s, b, x).ok && (Enable(w) || Plain(x))
    ensures var t := StepOn(port, s, b, x).engine;
            && Told(c in Held(s, w), Says(s, x, w, c), c in Held(t, w)) && t.drae == s.drae && t.qrae == s.qrae
            && t.qchmap == Mapping(s.qchmap, x)
  {
    StepObeys(port, s, b, x);
    hide Valid, BusOk, StepOn, Says, Told, Held, Enable, Legal, Plain;
    if Plain(x) {
      PlainHas(x);
      PlainSteps(port, s, b, x);
      RegionFits(s, x.a);
      PlainSays(s, x, w, c);
      hide Mapping;
    }
  }

  lemma PlainHas(x: Input)
    requires Plain(x) && Legal(x)
    ensures x.Guest? && x.a.ChannelReg? && Decoded(x.a)
  {
    hide Decoded;
  }

  lemma {:induction false} SameLast(s: Engine, t: Engine, xs: seq<Input>, w: Which, c: nat)
    requires s.drae == t.drae && s.qrae == t.qrae
    ensures LastSays(s, xs, w, c) == LastSays(t, xs, w, c)
  {
    if xs != [] {
      SameLast(s, t, xs[1..], w, c);
      hide LastSays;
    }
  }

  /** The value last written to the map of channel `q` in a run. */
  function LastMap(xs: seq<Input>, q: nat): Option<nat> {
    if xs == [] then None
    else
      var later := LastMap(xs[1..], q);
      if later.Some? then later else if xs[0].Guest? && xs[0].a.QchmapWord? && xs[0].a.q == q then Some(xs[0].a.v) else None
  }

  /** The QDMA map over any run of accepted writes and events: each entry is the last value written to it. */
  lemma {:induction false} LastMaps<D>(port: Port<D>, s: Engine, b: Bus<D>, xs: seq<Input>, q: nat)
    requires BusOk(b) && Valid(s) && (forall x | x in xs :: Legal(x)) && RunOn(port, s, b, xs).ok && q < QCHANNELS
    ensures var t, last := RunOn(port, s, b, xs).engine, LastMap(xs, q);
            |t.qchmap| == |s.qchmap| == QCHANNELS && t.qchmap[q] == if last.Some? then last.value else s.qchmap[q]
    decreases |xs|
  {
    EightMaps(s);
    hide Valid, BusOk, StepOn, Says, Held, Enable, Plain;
    if xs != [] {
      assert xs[0] in xs;
      StepTold(port, s, b, xs[0], Eer, 0);
      var r := StepOn(port, s, b, xs[0]);
      LastMaps(port, r.engine, r.bus, xs[1..], q);
    }
  }

  lemma EightMaps(s: Engine)
    requires Valid(s)
    ensures |s.qchmap| == QCHANNELS
  {
  }

  /**
   The register file.  Over any run of accepted writes and events, whatever they set in
   motion, an enable bit is what the last write naming it through its view made it; and over
   writes that set nothing in motion so is every bit of every channel register.
   */
  lemma {:induction false} LastWins<D>(port: Port<D>, s: Engine, b: Bus<D>, xs: seq<Input>, w: Which, c: nat)
    requires BusOk(b) && Valid(s) && (forall x | x in xs :: Legal(x)) && RunOn(port, s, b, xs).ok
    requires Enable(w) || forall x | x in xs :: Plain(x)
    ensures Told(c in Held(s, w), LastSays(s, xs, w, c), c in Held(RunOn(port, s, b, xs).engine, w))
    decreases |xs|
  {
    hide Valid, BusOk, StepOn, Says, Held, Enable, Legal, Plain;
    if xs != [] {
      assert xs[0] in xs;
      StepTold(port, s, b, xs[0], w, c);
      var r := StepOn(port, s, b, xs[0]);
      LastWins(port, r.engine, r.bus, xs[1..], w, c);
      SameLast(s, r.engine, xs[1..], w, c);
    }
  }

  /** A region asks for another pulse with IEVAL, and gets one exactly if it is pending. */
  lemma EvalNotifies<D>(port: Port<D>, s: Engine, b: Bus<D>, r: nat, value: set<nat>)
    requires BusOk(b) && Valid(s) && r < REGIONS && Below(value, 32)
    ensures var x := Guest(ChannelReg(Some(r), IEVAL, value));
            && StepOn(port, s, b, x).ok == (forall c :: c in value ==> c == 0)
            && var t := StepOn(port, s, b, x).engine;
               forall i :: i in t.notified <==> i in s.notified || (i == r && value == {0} && Pending(s, r))
  {
    hide LegalQchmap, ParamOk, Below, Pending, Attempt, WriteParam, Masked;
  }

  // ---------------------------------------------------------- the words of a set

  /** The eight words of a set, in their order in PaRAM. */
  function WordsOf(p: Param): seq<nat> { [p.opt, p.src, p.cnt, p.dst, p.bidx, p.link, p.cidx, p.ccnt] }

  /** A PaRAM write replaces the words it names and no others. */
  lemma {:induction false} WordsWritten(p: Param, w: nat, vs: seq<nat>)
    requires w + |vs| <= 8
    ensures WordsOf(SetWords(p, w, vs)) == WordsOf(p)[..w] + vs + WordsOf(p)[w + |vs|..]
    decreases |vs|
  {
    hide SetWord;
    if vs != [] {
      var q := SetWord(p, w, vs[0]);
      WordWritten(p, w, vs[0]);
      WordsWritten(q, w + 1, vs[1..]);
      hide WordsOf, SetWords;
      Spliced(WordsOf(p), WordsOf(q), w, vs);
    } else {
      assert WordsOf(p)[..w] + [] + WordsOf(p)[w..] == WordsOf(p);
    }
  }

  lemma WordWritten(p: Param, w: nat, v: nat)
    requires w < 8
    ensures WordsOf(SetWord(p, w, v)) == WordsOf(p)[w := v]
  {
  }

  lemma Spliced(a: seq<nat>, b: seq<nat>, w: nat, vs: seq<nat>)
    requires |a| == 8 && vs != [] && w + |vs| <= 8 && b == a[w := vs[0]]
    ensures |b| == 8 && b[..w + 1] + vs[1..] + b[w + |vs|..] == a[..w] + vs + a[w + |vs|..]
  {
    assert vs == [vs[0]] + vs[1..];
  }

  /** And it is let through exactly when the set it leaves is one the engine can hold, reserved bits clear. */
  lemma LegalWritten(p: Param, w: nat, vs: seq<nat>)
    requires ParamOk(p) && w + |vs| <= 8 && forall v | v in vs :: v < WORD
    ensures LegalWords(w, vs) <==> ParamOk(SetWords(p, w, vs))
  {
    var r := SetWords(p, w, vs);
    WordsWritten(p, w, vs);
    WordsSmall(p, w, vs, r);
    FirstAndLast(p, w, vs, r);
    hide SetWords, LegalOpt, WordsOf;
  }

  lemma WordsSmall(p: Param, w: nat, vs: seq<nat>, r: Param)
    requires p.Words() && w + |vs| <= 8 && (forall v | v in vs :: v < WORD) && WordsOf(r) == WordsOf(p)[..w] + vs + WordsOf(p)[w + |vs|..]
    ensures r.Words()
  {
    var a, b := WordsOf(p), WordsOf(r);
    assert forall i | 0 <= i < 8 :: a[i] < WORD;
    forall i | 0 <= i < 8 ensures b[i] < WORD {
      if w <= i < w + |vs| {
        assert b[i] == vs[i - w] && vs[i - w] in vs;
      } else {
        assert b[i] == a[i];
      }
    }
    assert b[0] < WORD && b[1] < WORD && b[2] < WORD && b[3] < WORD && b[4] < WORD && b[5] < WORD && b[6] < WORD && b[7] < WORD;
  }

  lemma FirstAndLast(p: Param, w: nat, vs: seq<nat>, r: Param)
    requires w + |vs| <= 8 && WordsOf(r) == WordsOf(p)[..w] + vs + WordsOf(p)[w + |vs|..]
    ensures r.opt == (if w == 0 < |vs| then vs[0] else p.opt) && r.ccnt == if w <= 7 < w + |vs| then vs[7 - w] else p.ccnt
  {
    var a, b := WordsOf(p), WordsOf(r);
    assert b[0] == r.opt && b[7] == r.ccnt && a[0] == p.opt && a[7] == p.ccnt;
  }

  // ----------------------------------------------------- what a write sets off

  /** A QCHMAP value: a PaRAM set and the word of it that triggers. */
  predicate MapsTo(v: nat, set_: nat, word: nat) { word < 8 && v == set_ * 32 + word * 4 }

  lemma MapParts(v: nat, set_: nat, word: nat)
    requires LegalQchmap(v)
    ensures MapsTo(v, set_, word) <==> v / 32 % 512 == set_ && v / 4 % 8 == word
  {
    assert v == v / 32 * 32 + v / 4 % 8 * 4;
  }

  /** The trigger word is one of the `n` words of `set_` from `word` on. */
  ghost predicate Written(v: nat, set_: nat, word: nat, n: nat) { exists w: nat | word <= w < word + n :: MapsTo(v, set_, w) }

  /** A PaRAM write triggers exactly the enabled QDMA channels whose trigger word it writes. */
  lemma {:induction false} TriggeredIs(s: Engine, set_: nat, word: nat, n: nat, from: nat)
    requires Valid(s) && from <= QCHANNELS
    ensures forall q: nat :: q in Triggered(s, set_, word, n, from) <==>
              from <= q < QCHANNELS && q in s.qeer && Written(s.qchmap[q], set_, word, n)
    decreases QCHANNELS - from
  {
    hide Written, Valid, LegalQchmap;
    if from < QCHANNELS {
      MapLegal(s, from);
      TriggeredIs(s, set_, word, n, from + 1);
      TriggerMaps(s.qchmap[from], set_, word, n);
    } else {
      MapLegal(s, 0);
    }
  }

  lemma MapLegal(s: Engine, q: nat)
    requires Valid(s) && q < QCHANNELS
    ensures |s.qchmap| == QCHANNELS && LegalQchmap(s.qchmap[q])
  {
    hide ParamOk;
  }

  lemma TriggerMaps(v: nat, set_: nat, word: nat, n: nat)
    requires LegalQchmap(v)
    ensures v / 32 % 512 == set_ && word <= v / 4 % 8 < word + n <==> Written(v, set_, word, n)
  {
    hide LegalQchmap, MapsTo;
    MapParts(v, set_, v / 4 % 8);
    if w: nat :| word <= w < word + n && MapsTo(v, set_, w) {
      MapParts(v, set_, w);
    }
  }

  /** DMA channels in increasing order. */
  ghost predicate InOrder(events: seq<Event>) {
    && (forall i | 0 <= i < |events| :: events[i].kind == Dma)
    && (forall i, j | 0 <= i < j < |events| :: events[i].channel < events[j].channel)
  }

  lemma {:induction false} ChannelsIs(d: set<nat>, from: nat)
    requires from <= CHANNELS
    ensures forall c: nat :: Event(Dma, c) in Channels(d, from) <==> from <= c < CHANNELS && c in d
    ensures InOrder(Channels(d, from))
    decreases CHANNELS - from
  {
    if from < CHANNELS {
      hide InOrder;
      ChannelsIs(d, from + 1);
      OrderFrom(Channels(d, from + 1), from);
    } else {
      assert InOrder([]);
    }
  }

  lemma OrderFrom(rest: seq<Event>, from: nat)
    requires InOrder(rest) && forall c | Event(Dma, c) in rest :: from < c
    ensures InOrder([Event(Dma, from)] + rest)
  {
    assert forall i | 0 <= i < |rest| :: rest[i] in rest && Event(Dma, rest[i].channel) == rest[i];
  }

  /** A run serving first `asked`, then what that set off, took the engine from `s` to `t`. */
  ghost predicate Does(s: Engine, t: Engine, asked: seq<Event>) {
    exists events: seq<Event>, bytes: nat :: Ran(s, t, events, bytes) && asked <= events
  }

  lemma AttemptDoes<D>(port: Port<D>, s: Engine, trial: Engine, actual: Engine, b: Bus<D>, events: seq<Event>)
    requires BusOk(b) && Valid(s) && Valid(trial) && Valid(actual)
    requires |events| <= CHANNELS && (forall e | e in events :: Known(e)) && Attempt(port, s, trial, actual, b, events, true).ok
    ensures Does(actual, Attempt(port, s, trial, actual, b, events, true).engine, events)
  {
    hide Valid, BusOk, Service, Known, Ran, PlanOf, Served, Total;
    ServiceRan(port, actual, b, events, 0, true);
  }

  /** Bits named through a view. */
  ghost predicate Named(s: Engine, region: Option<nat>, value: set<nat>, c: nat) { c in value && Through(s, region, false, c) }

  /** From `s`, but for the bits written to ESR or EESR, a run to `t` served first the channels it should, in increasing order. */
  ghost predicate NamesServed(s: Engine, t: Engine, region: Option<nat>, reg: Reg, value: set<nat>) {
    exists u: Engine, asked: seq<Event> ::
      && u == (if reg == ESR then s.(esr := u.esr) else s.(eer := u.eer)) && Does(u, t, asked)
      && InOrder(asked) && forall c :: Event(Dma, c) in asked <==> Named(s, region, value, c) && (reg == ESR || c in s.er)
  }

  lemma DoesNames(s: Engine, u: Engine, t: Engine, asked: seq<Event>, region: Option<nat>, reg: Reg, value: set<nat>)
    requires u == (if reg == ESR then s.(esr := u.esr) else s.(eer := u.eer)) && Does(u, t, asked)
    requires InOrder(asked) && forall c :: Event(Dma, c) in asked <==> Named(s, region, value, c) && (reg == ESR || c in s.er)
    ensures NamesServed(s, t, region, reg, value)
  {
    hide Does, Named, InOrder;
  }

  lemma MaskedIs(s: Engine, region: Option<nat>, value: set<nat>)
    requires Valid(s) && |s.drae| == |s.qrae| == REGIONS && (region.Some? ==> region.value < REGIONS) && Below(value, 32)
    ensures forall c: nat :: c in Masked(s, region, false, value) <==> Named(s, region, value, c)
    ensures forall c: nat :: c in Masked(s, region, false, value) ==> c < CHANNELS
  {
    hide Valid;
  }

  /** An accepted write to ESR, or to EESR for channels whose event is waiting, serves each channel it names. */
  lemma NamedAreServed<D>(port: Port<D>, s: Engine, b: Bus<D>, region: Option<nat>, reg: Reg, value: set<nat>)
    requires BusOk(b) && Valid(s) && Decoded(ChannelReg(region, reg, value)) && (reg == ESR || reg == EESR)
    requires StepOn(port, s, b, Guest(ChannelReg(region, reg, value))).ok
    ensures NamesServed(s, StepOn(port, s, b, Guest(ChannelReg(region, reg, value))).engine, region, reg, value)
  {
    hide *;
    var a := ChannelReg(region, reg, value);
    RegionFits(s, a);
    BitsFit(a);
    MaskedIs(s, region, value);
    ChannelRegValid(s, a);
    var d := Masked(s, region, false, value);
    var all := if reg == ESR then d else d * s.er;
    var s1 := if reg == ESR then s.(esr := s.esr + d) else s.(eer := s.eer + d);
    ChannelsKnown(all, 0);
    ChannelsIs(all, 0);
    StepAttempts(port, s, b, region, reg, value);
    AttemptDoes(port, s, s1, s1, b, Channels(all, 0));
    DoesNames(s, s1, StepOn(port, s, b, Guest(a)).engine, Channels(all, 0), region, reg, value);
  }

  lemma BitsFit(a: Access)
    requires Decoded(a) && a.ChannelReg?
    ensures Below(a.value, 32) && Legal(Guest(a))
  {
    hide Below;
  }

  lemma StepAttempts<D>(port: Port<D>, s: Engine, b: Bus<D>, region: Option<nat>, reg: Reg, value: set<nat>)
    requires BusOk(b) && Valid(s) && Decoded(ChannelReg(region, reg, value)) && (reg == ESR || reg == EESR)
    requires |s.drae| == |s.qrae| == REGIONS && (region.Some? ==> region.value < REGIONS)
    requires var d := Masked(s, region, false, value);
             && Valid(s.(esr := s.esr + d)) && Valid(s.(eer := s.eer + d))
             && var all := if reg == ESR then d else d * s.er;
                |Channels(all, 0)| <= CHANNELS && forall e | e in Channels(all, 0) :: Known(e)
    ensures var d := Masked(s, region, false, value);
            var s1 := if reg == ESR then s.(esr := s.esr + d) else s.(eer := s.eer + d);
            StepOn(port, s, b, Guest(ChannelReg(region, reg, value)))
            == Attempt(port, s, s1, s1, b, Channels(if reg == ESR then d else d * s.er, 0), true)
  {
    hide Valid, BusOk, Known, Attempt, Channels, Masked, PlainWrite;
  }

  /** What an event on an enabled channel does, if it is accepted: missed if it was latched already, it is served first. */
  ghost predicate EventDone(s: Engine, t: Engine, channel: nat) {
    exists u: Engine ::
      && u == s.(er := u.er, emr := u.emr) && Does(u, t, [Event(Dma, channel)])
      && (forall c :: c in u.er <==> c in s.er || c == channel)
      && (forall c :: c in u.emr <==> c in s.emr || (c == channel && c in s.er))
  }

  /** An accepted event: on an enabled channel it is served, and on any other it waits, and is missed by nobody. */
  lemma EventServed<D>(port: Port<D>, s: Engine, b: Bus<D>, channel: nat)
    requires BusOk(b) && Valid(s) && Signal(port, s, b, channel).ok
    ensures channel < CHANNELS
    ensures var r := Signal(port, s, b, channel);
            if channel in s.eer then EventDone(s, r.engine, channel) else r == Run(true, s.(er := s.er + {channel}), b)
  {
    hide *;
    EventTaken(port, s, b, channel);
    if channel in s.eer {
      SignalParts(port, s, b, channel);
      var l := Latched(s, channel);
      OneEvent();
      ServiceRan(port, l, b, [Event(Dma, channel)], 0, true);
      DoesOnce(l, Signal(port, s, b, channel).engine, Served(l, [Event(Dma, channel)], 0), channel,
               Total(PlanOf(l, [Event(Dma, channel)], 0).moves));
      LatchedDone(s, Signal(port, s, b, channel).engine, channel);
    }
  }

  lemma EventTaken<D>(port: Port<D>, s: Engine, b: Bus<D>, channel: nat)
    requires BusOk(b) && Valid(s) && Signal(port, s, b, channel).ok
    ensures channel < CHANNELS && (channel !in s.eer ==> Signal(port, s, b, channel) == Run(true, s.(er := s.er + {channel}), b))
  {
    hide Valid, Service;
  }

  lemma OneEvent()
    ensures 1 <= SERVICE_LIMIT
  {
  }

  lemma DoesOnce(l: Engine, t: Engine, events: seq<Event>, channel: nat, bytes: nat)
    requires Ran(l, t, events, bytes) && [Event(Dma, channel)] <= events
    ensures Does(l, t, [Event(Dma, channel)])
  {
    hide Ran;
  }

  lemma LatchedDone(s: Engine, t: Engine, channel: nat)
    requires Does(Latched(s, channel), t, [Event(Dma, channel)])
    ensures EventDone(s, t, channel)
  {
    hide Does;
    var l := Latched(s, channel);
    assert l == s.(er := l.er, emr := l.emr);
  }
}
