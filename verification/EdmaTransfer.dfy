/**
 Whole transfers through the engine.  A set whose requests set off nothing is run event by
 event; a set that chains to its own channel is run by one event; and whatever else is
 linked, chained and triggered around it, a set that nothing else reaches moves its grid.
 */
module EdmaTransfer {
  import opened Common
  import opened Memory
  import opened Edma
  import opened EdmaPlan
  import opened EdmaGrid

  // ----------------------------------------------- a transfer by its requests

  /** The last request of a transfer triggers no QDMA channel: a null link, or none enabled on the set. */
  predicate QuietLink(s: Engine, channel: nat)
    requires channel < |s.param| && |s.qchmap| == QCHANNELS
  {
    s.param[channel].Link() == 0xffff || Linked(s, channel, 0) == []
  }

  /** What the last request leaves in the set: a null set, or the linked set. */
  function EndSet(s: Engine, channel: nat): Param
    requires channel < |s.param| == PARAMS && Gridded(s.param[channel])
  {
    var p := s.param[channel];
    if p.Link() == 0xffff then NULL_SET
    else if p.Link() % 0x4000 / 32 == channel then After(p, Last(p)) else s.param[p.Link() % 0x4000 / 32]
  }

  /** The number of the last request. */
  function Last(p: Param): (n: nat)
    requires Gridded(p)
    ensures n + 1 == Events(p)
  {
    Multiple(p.CCnt(), p.BCnt());
    Events(p) - 1
  }

  /** The completion codes raised by `k` requests: an intermediate one by all but the last, the final one by that. */
  function Codes(p: Param, k: nat): set<nat> {
    if (p.Bit(OPT_ITCINTEN) && 0 < Min(k, Events(p) - 1)) || (p.Bit(OPT_TCINTEN) && k >= Events(p)) then {p.Tcc()} else {}
  }

  /** Where the transfer of a set of `s` stands after `k` of its requests. */
  ghost predicate Stands(s: Engine, t: Engine, channel: nat, k: nat)
    requires channel < |s.param| == PARAMS && Gridded(s.param[channel])
  {
    var p := s.param[channel];
    && t.param == s.param[channel := if k < Events(p) then After(p, k) else EndSet(s, channel)]
    && t.qchmap == s.qchmap && t.qeer == s.qeer && t.eer == s.eer
    && t.requests == s.requests + k && t.moved == s.moved + p.ACnt() * Count(p, k)
    && t.ipr == s.ipr + Codes(p, k)
  }

  /** What request `k` finds in its set. */
  lemma FoundAt(p: Param, k: nat)
    requires Gridded(p) && k < Events(p)
    ensures var q := After(p, k);
            && ValidParam(q) && q.opt == p.opt && q.link == p.link && q.ACnt() == p.ACnt()
            && q.Final() == (k == Events(p) - 1)
            && Count(p, k + 1) == Count(p, k) + (if q.AbSync() then q.BCnt() else 1)
  {
    hide *;
    AfterIsAt(p, k);
    AtFields(p, Row(p, k), Place(p, k));
    SyncCounts(p, After(p, k), k);
  }

  lemma SyncCounts(p: Param, q: Param, k: nat)
    requires p.opt == q.opt && p.BCnt() > 0 && Place(p, k) <= p.BCnt() && q.BCnt() == p.BCnt() - Place(p, k)
    ensures Count(p, k + 1) == Count(p, k) + (if q.AbSync() then q.BCnt() else 1)
  {
    assert p.AbSync() == q.AbSync();
    assert (k + 1) * p.BCnt() == k * p.BCnt() + p.BCnt();
    hide p.BCnt, q.BCnt, p.AbSync, q.AbSync;
  }

  /** The fields of a set that its options and link word decide. */
  lemma FoundOptions(p: Param, k: nat)
    requires Gridded(p) && k < Events(p)
    ensures var q := After(p, k);
            && !q.Static() && q.Tcc() == p.Tcc() && q.Link() == p.Link() && q.AbSync() == p.AbSync()
            && q.Interrupts() == p.Bit(if k == Events(p) - 1 then OPT_TCINTEN else OPT_ITCINTEN)
            && q.Chains() == p.Bit(if k == Events(p) - 1 then OPT_TCCHEN else OPT_ITCCHEN)
            && Relinks(q) == (k == Events(p) - 1 && p.Link() != 0xffff)
  {
    FoundAt(p, k);
    var q := After(p, k);
    assert !p.Static();
    hide After, Events, Gridded, p.BCnt, q.BCnt, p.CCnt, q.CCnt, Count, q.Final;
  }

  /** The registers of a transfer after a request that triggers no QDMA channel. */
  lemma CompletedFields(s: Engine, e: Event, set_: nat)
    requires Valid(s) && set_ < PARAMS && ValidParam(s.param[set_]) && (Relinks(s.param[set_]) ==> Linked(s, set_, 0) == [])
    ensures var p, t := s.param[set_], Completed(s, e, set_);
            && t.param == s.param[set_ := Updated(s.param, set_)]
            && t.qchmap == s.qchmap && t.qeer == s.qeer && t.eer == s.eer
            && t.requests == s.requests + 1
            && t.moved == s.moved + p.ACnt() * (if p.AbSync() then p.BCnt() else 1)
            && t.ipr == if p.Interrupts() then s.ipr + {p.Tcc()} else s.ipr
  {
    SameLinked(Cleared(s, e), s, set_, 0);
    hide Updated, Relinks, ValidParam, Linked, s.param[set_].Chains, s.param[set_].Interrupts, s.param[set_].AbSync, Newly;
  }

  lemma NextSet(s: Engine, t: Engine, channel: nat, k: nat)
    requires channel < |s.param| == PARAMS && Gridded(s.param[channel]) && k < Events(s.param[channel])
    requires t.param == s.param[channel := After(s.param[channel], k)]
    ensures ValidParam(t.param[channel])
    ensures Updated(t.param, channel) ==
            if k + 1 < Events(s.param[channel]) then After(s.param[channel], k + 1) else EndSet(s, channel)
  {
    var p := s.param[channel];
    var q := After(p, k);
    FoundAt(p, k);
    FoundOptions(p, k);
    assert Last(p) + 1 == Events(p);
    assert t.param[channel] == q && !q.Static();
    hide Gridded, Events, Advance, ValidParam, q.Static, q.Final, p.Link, q.Link;
  }

  lemma CodesGrow(p: Param, k: nat)
    requires Gridded(p) && k < Events(p)
    ensures Codes(p, k + 1) == Codes(p, k) + if After(p, k).Interrupts() then {p.Tcc()} else {}
  {
    FoundOptions(p, k);
    var q := After(p, k);
    hide Gridded, Events, After, Relinks, q.Static, q.Link, q.Interrupts, q.Chains, q.AbSync, p.AbSync, q.Tcc, p.Tcc, p.Bit;
  }

  lemma Distribute(a: nat, x: nat, y: nat)
    ensures a * (x + y) == a * x + a * y
  {
  }

  /** One more request of the transfer, and it stands one further. */
  lemma StandsNext(s: Engine, t: Engine, e: Event, channel: nat, k: nat)
    requires |s.param| == PARAMS && |s.qchmap| == QCHANNELS && Valid(t) && channel < CHANNELS
    requires Gridded(s.param[channel]) && QuietLink(s, channel) && k < Events(s.param[channel]) && Stands(s, t, channel, k)
    ensures ValidParam(t.param[channel]) && t.param[channel] == After(s.param[channel], k)
    ensures Relinks(t.param[channel]) ==> Linked(t, channel, 0) == []
    ensures Stands(s, Completed(t, e, channel), channel, k + 1)
  {
    assert channel < PARAMS;
    hide *;
    Sizes(t);
    var p := s.param[channel];
    var q := After(p, k);
    StandsHere(s, t, channel, k);
    FoundAt(p, k);
    NextSet(s, t, channel, k);
    CodesGrow(p, k);
    CompletedFields(t, e, channel);
    StandsFrom(s, t, Completed(t, e, channel), channel, k, if q.Interrupts() then {p.Tcc()} else {},
               if q.AbSync() then q.BCnt() else 1);
  }

  /** What the next request finds: its set, and a link that triggers nothing. */
  lemma StandsHere(s: Engine, t: Engine, channel: nat, k: nat)
    requires |s.param| == PARAMS && |s.qchmap| == QCHANNELS && channel < CHANNELS
    requires Gridded(s.param[channel]) && QuietLink(s, channel) && k < Events(s.param[channel]) && Stands(s, t, channel, k)
    ensures var q := After(s.param[channel], k);
            && t.param == s.param[channel := q] && t.param[channel] == q && q.Tcc() == s.param[channel].Tcc()
            && |t.qchmap| == QCHANNELS && (Relinks(q) ==> Linked(t, channel, 0) == [])
  {
    var p := s.param[channel];
    FoundOptions(p, k);
    SameLinked(s, t, channel, 0);
    hide Gridded, EndSet, Events, After, Count, Codes, Relinks, Linked, p.Tcc, p.ACnt, p.Link;
  }

  lemma StandsFrom(s: Engine, t: Engine, u: Engine, channel: nat, k: nat, codes: set<nat>, arrays: nat)
    requires channel < |s.param| == PARAMS && Gridded(s.param[channel]) && k < Events(s.param[channel])
    requires var p := s.param[channel];
             && Stands(s, t, channel, k) && |t.param| == PARAMS
             && u.param == t.param[channel := if k + 1 < Events(p) then After(p, k + 1) else EndSet(s, channel)]
             && u.qchmap == t.qchmap && u.qeer == t.qeer && u.eer == t.eer && u.requests == t.requests + 1
             && u.moved == t.moved + p.ACnt() * arrays && u.ipr == t.ipr + codes
             && Count(p, k + 1) == Count(p, k) + arrays && Codes(p, k + 1) == Codes(p, k) + codes
    ensures Stands(s, u, channel, k + 1)
  {
    var p := s.param[channel];
    hide Gridded, EndSet, Events, After, Count, Codes, p.ACnt;
    Distribute(p.ACnt(), Count(p, k), arrays);
  }

  lemma StandsAtFirst(s: Engine, channel: nat)
    requires channel < |s.param| == PARAMS && Gridded(s.param[channel])
    ensures Stands(s, s, channel, 0)
  {
    var p := s.param[channel];
    assert Last(p) >= 0;
    hide Events, Gridded, EndSet;
    assert Count(p, 0) == 0 && Codes(p, 0) == {} && p.ACnt() * 0 == 0;
    hide Count, Codes;
  }

  /** The event latches are no part of where a transfer stands. */
  lemma StandsLatched(s: Engine, t: Engine, channel: nat, k: nat)
    requires channel < |s.param| == PARAMS && Gridded(s.param[channel]) && Stands(s, t, channel, k)
    ensures Stands(s, Latched(t, channel), channel, k)
  {
    hide Gridded, EndSet, After, Count, Codes, Events;
  }

  // ------------------------------------------------------- event by event

  /** A set whose requests set off nothing. */
  predicate Alone(s: Engine, channel: nat)
    requires channel < |s.param| && |s.qchmap| == QCHANNELS
  {
    var p := s.param[channel];
    Gridded(p) && !p.Bit(OPT_TCCHEN) && !p.Bit(OPT_ITCCHEN) && QuietLink(s, channel)
  }

  /** Such a set on an enabled channel. */
  ghost predicate Ready(s: Engine, channel: nat)
    ensures Ready(s, channel) ==> Valid(s) && channel < CHANNELS && channel < PARAMS == |s.param| && |s.qchmap| == QCHANNELS
    ensures Ready(s, channel) ==> channel in s.eer && Alone(s, channel) && Gridded(s.param[channel])
  {
    Valid(s) && channel < CHANNELS && channel in s.eer && Alone(s, channel)
  }

  /** `k` events on one channel, stopping if one is refused. */
  function Burst<D>(port: Port<D>, s: Engine, b: Bus<D>, channel: nat, k: nat): (r: Run<D>)
    requires BusOk(b) && Valid(s)
    ensures BusOk(r.bus) && r.bus.config == b.config && (r.ok ==> Valid(r.engine))
  {
    if k == 0 then Run(true, s, b)
    else
      var r := Burst(port, s, b, channel, k - 1);
      if !r.ok then r else Signal(port, r.engine, r.bus, channel)
  }

  /** The moves of the first `k` requests of a transfer. */
  function FirstMoves(p: Param, channel: nat, k: nat): seq<Move> { Tagged(channel, MovedBy(p, k), p.ACnt()) }

  lemma FirstMovesGrow(p: Param, channel: nat, k: nat)
    requires Gridded(p) && k < Events(p)
    ensures FirstMoves(p, channel, k + 1) == FirstMoves(p, channel, k) + Tagged(channel, MovesOf(After(p, k)), After(p, k).ACnt())
  {
    FoundAt(p, k);
    hide Gridded, Events, After, MovesOf, ValidParam, Count, p.ACnt, p.AbSync, p.BCnt;
    var q := After(p, k);
    hide q.ACnt, q.AbSync, q.BCnt, q.Final;
    assert MovedBy(p, k + 1) == MovedBy(p, k) + MovesOf(q);
    TaggedConcat(channel, MovedBy(p, k), MovesOf(q), p.ACnt());
    hide Tagged, MovedBy;
  }

  lemma TaggedConcat(set_: nat, a: seq<(nat, nat)>, b: seq<(nat, nat)>, n: nat)
    ensures Tagged(set_, a + b, n) == Tagged(set_, a, n) + Tagged(set_, b, n)
  {
  }

  /** Registers and memory when a run stands after `k` events of the transfer in a set of `s`. */
  ghost predicate Reached<D>(port: Port<D>, s: Engine, b: Bus<D>, channel: nat, k: nat, r: Run<D>)
    requires BusOk(b) && channel < |s.param| == PARAMS && Gridded(s.param[channel])
  {
    && Stands(s, r.engine, channel, k)
    && Carry(port, b, FirstMoves(s.param[channel], channel, k), true) == Moved(true, r.bus)
  }

  /** The plan of an event whose one request sets off nothing. */
  lemma PlanOnce(s: Engine, channel: nat, served: nat)
    requires Valid(s) && channel < CHANNELS && ValidParam(s.param[channel]) && SetsOff(s, channel) == [] && served < SERVICE_LIMIT
    ensures var e := Event(Dma, channel);
            PlanOf(s, [e], served) == Plan(true, Completed(s, e, channel), OwnMoves(s, channel))
  {
    var e := Event(Dma, channel);
    assert e in [e] && [e][1..] + [] == [] && SetOf(s, e) == channel;
    CompletedValid(s, e, channel);
    hide Valid, ValidParam, Completed, OwnMoves, SetsOff;
    var t := Completed(s, e, channel);
    assert PlanOf(t, [], served + 1) == Plan(true, t, []);
    assert OwnMoves(s, channel) + [] == OwnMoves(s, channel);
  }

  lemma NothingSetOff(s: Engine, t: Engine, channel: nat, k: nat)
    requires |s.param| == PARAMS && |s.qchmap| == QCHANNELS && Valid(t) && channel < CHANNELS
    requires Alone(s, channel) && k < Events(s.param[channel]) && t.param[channel] == After(s.param[channel], k)
    requires Relinks(t.param[channel]) ==> Linked(t, channel, 0) == []
    ensures SetsOff(t, channel) == []
  {
    FoundOptions(s.param[channel], k);
    var p, q := s.param[channel], t.param[channel];
    hide Gridded, QuietLink, Events, After, Relinks, Linked, q.Static, q.Tcc, q.Link, q.AbSync, q.Interrupts, q.Chains, p.Bit;
  }

  lemma BurstStep<D>(port: Port<D>, s: Engine, b: Bus<D>, channel: nat, k: nat, r: Run<D>)
    requires BusOk(b) && BusOk(r.bus) && Valid(r.engine) && Ready(s, channel) && k < Events(s.param[channel])
    requires Reached(port, s, b, channel, k, r) && Signal(port, r.engine, r.bus, channel).ok
    ensures Reached(port, s, b, channel, k + 1, Signal(port, r.engine, r.bus, channel))
  {
    var p, t, u, e := s.param[channel], r.engine, Latched(r.engine, channel), Event(Dma, channel);
    assert channel in t.eer && |s.qchmap| == QCHANNELS;
    SignalParts(port, t, r.bus, channel);
    StandsLatched(s, t, channel, k);
    hide Reached, Stands, Valid, Latched, Signal, Rehearses, Events, Gridded, Service, Carry;
    StandsNext(s, u, e, channel, k);
    NothingSetOff(s, u, channel, k);
    PlanOnce(u, channel, 0);
    hide Alone, Completed, SetsOff, ValidParam, QuietLink, Linked, Relinks;
    ServiceIsPlan(port, u, r.bus, [e], 0, true);
    FirstMovesGrow(p, channel, k);
    assert OwnMoves(u, channel) == Tagged(channel, MovesOf(After(p, k)), After(p, k).ACnt());
    hide OwnMoves, Tagged, MovesOf, FirstMoves;
    BurstGlue(port, s, b, channel, k, r, Completed(u, e, channel), OwnMoves(u, channel), Signal(port, t, r.bus, channel));
  }

  lemma BurstGlue<D>(port: Port<D>, s: Engine, b: Bus<D>, channel: nat, k: nat, r: Run<D>, u: Engine, own: seq<Move>, x: Run<D>)
    requires BusOk(b) && BusOk(r.bus) && channel < |s.param| == PARAMS && Gridded(s.param[channel])
    requires FirstMoves(s.param[channel], channel, k + 1) == FirstMoves(s.param[channel], channel, k) + own
    requires Reached(port, s, b, channel, k, r) && Stands(s, u, channel, k + 1)
    requires x.ok && Follows(x, Plan(true, u, own), Carry(port, r.bus, own, true))
    ensures Reached(port, s, b, channel, k + 1, x)
  {
    CarryConcat(port, b, FirstMoves(s.param[channel], channel, k), own, true);
    hide Stands, Gridded, Carry, FirstMoves, BusOk;
  }

  lemma BurstStart<D>(port: Port<D>, s: Engine, b: Bus<D>, channel: nat)
    requires BusOk(b) && channel < |s.param| == PARAMS && Gridded(s.param[channel])
    ensures Reached(port, s, b, channel, 0, Run(true, s, b))
  {
    StandsAtFirst(s, channel);
    assert FirstMoves(s.param[channel], channel, 0) == [];
    CarryNone(port, b, true);
    hide Stands, Gridded, Carry, FirstMoves;
  }

  lemma BurstSplits<D>(port: Port<D>, s: Engine, b: Bus<D>, channel: nat, k: nat)
    requires BusOk(b) && Valid(s) && Burst(port, s, b, channel, k).ok
    ensures k == 0 ==> Burst(port, s, b, channel, k) == Run(true, s, b)
    ensures k > 0 ==> var r := Burst(port, s, b, channel, k - 1);
                      r.ok && Burst(port, s, b, channel, k) == Signal(port, r.engine, r.bus, channel)
  {
    hide Valid, BusOk, Signal, Gridded, QuietLink;
  }

  /**
   Run the events of such a transfer on its channel.  After `k` of them every set, the counters
   and the completion codes are in closed form, and memory is what moving the first arrays of
   the grid in turn leaves.
   */
  lemma {:induction false} BurstStands<D>(port: Port<D>, s: Engine, b: Bus<D>, channel: nat, k: nat)
    requires BusOk(b) && Ready(s, channel) && k <= Events(s.param[channel]) && Burst(port, s, b, channel, k).ok
    ensures Reached(port, s, b, channel, k, Burst(port, s, b, channel, k))
  {
    hide *;
    BurstSplits(port, s, b, channel, k);
    if k == 0 {
      BurstStart(port, s, b, channel);
    } else {
      BurstStands(port, s, b, channel, k - 1);
      BurstStep(port, s, b, channel, k - 1, Burst(port, s, b, channel, k - 1));
    }
  }

  /** What a whole transfer leaves: every array of the grid moved once, in order, and the linked set or a null one. */
  ghost predicate Whole(s: Engine, t: Engine, channel: nat)
    requires channel < |s.param| == PARAMS && Gridded(s.param[channel])
  {
    var p := s.param[channel];
    && t.param == s.param[channel := EndSet(s, channel)]
    && t.moved == s.moved + p.ACnt() * (p.BCnt() * p.CCnt()) && t.requests == s.requests + Events(p)
    && t.ipr == s.ipr + Codes(p, Events(p))
  }

  /** All moves of the transfer: its grid. */
  function GridMoves(p: Param, channel: nat): seq<Move>
    requires Gridded(p)
  {
    Tagged(channel, Grid(p, p.BCnt() * p.CCnt()), p.ACnt())
  }

  lemma AllMoves(s: Engine, t: Engine, channel: nat)
    requires channel < |s.param| == PARAMS && Gridded(s.param[channel])
    ensures FirstMoves(s.param[channel], channel, Events(s.param[channel])) == GridMoves(s.param[channel], channel)
    ensures Stands(s, t, channel, Events(s.param[channel])) ==> Whole(s, t, channel)
  {
    var p := s.param[channel];
    CountAll(p);
    hide Events, Count;
    MovesTheGrid(p, Events(p));
    hide Gridded, MovedBy, Grid, Events, Count, EndSet, Codes, p.ACnt, p.BCnt, p.CCnt;
  }

  lemma CountAll(p: Param)
    ensures Count(p, Events(p)) == p.BCnt() * p.CCnt()
  {
    hide p.AbSync, p.BCnt, p.CCnt;
  }

  lemma WholeTransfer<D>(port: Port<D>, s: Engine, b: Bus<D>, channel: nat)
    requires BusOk(b) && Ready(s, channel) && Burst(port, s, b, channel, Events(s.param[channel])).ok
    ensures var r := Burst(port, s, b, channel, Events(s.param[channel]));
            && Whole(s, r.engine, channel)
            && Carry(port, b, GridMoves(s.param[channel], channel), true) == Moved(true, r.bus)
  {
    var p := s.param[channel];
    BurstStands(port, s, b, channel, Events(p));
    AllMoves(s, Burst(port, s, b, channel, Events(p)).engine, channel);
    hide Gridded, Ready, Alone, Burst, Carry, Valid, Stands, Whole, FirstMoves, GridMoves, Events;
  }

  // ------------------------------------------------ one event for the whole

  /** A set whose every request but the last chains its own channel, and whose last sets off nothing. */
  predicate SelfChained(s: Engine, channel: nat)
    requires channel < |s.param| && |s.qchmap| == QCHANNELS
  {
    var p := s.param[channel];
    && Gridded(p) && p.Bit(OPT_ITCCHEN) && p.Tcc() == channel && !p.Bit(OPT_TCCHEN) && QuietLink(s, channel)
    && Events(p) <= SERVICE_LIMIT
  }

  lemma ItselfSetOff(s: Engine, t: Engine, channel: nat, k: nat)
    requires |s.param| == PARAMS && |s.qchmap| == QCHANNELS && Valid(t) && channel < CHANNELS
    requires SelfChained(s, channel) && k < Events(s.param[channel]) && t.param[channel] == After(s.param[channel], k)
    requires Relinks(t.param[channel]) ==> Linked(t, channel, 0) == []
    ensures SetsOff(t, channel) == if k == Events(s.param[channel]) - 1 then [] else [Event(Dma, channel)]
  {
    FoundOptions(s.param[channel], k);
    var p, q := s.param[channel], t.param[channel];
    hide Gridded, QuietLink, Events, After, Relinks, Linked, q.Static, q.Link, q.AbSync, q.Interrupts, q.Chains, p.Bit;
  }

  /** What is left of the transfer after `k` requests is one plan, ending with the transfer done. */
  ghost predicate Finishes(s: Engine, channel: nat, k: nat, plan: Plan)
    requires channel < |s.param| == PARAMS && Gridded(s.param[channel])
  {
    var p := s.param[channel];
    && plan.ok && Stands(s, plan.engine, channel, Events(p))
    && FirstMoves(p, channel, k) + plan.moves == FirstMoves(p, channel, Events(p))
  }

  /** Part of the way through such a transfer. */
  ghost predicate UnderWay(s: Engine, t: Engine, channel: nat, k: nat)
    ensures UnderWay(s, t, channel, k) ==> channel < CHANNELS && channel < PARAMS == |s.param| && |s.qchmap| == QCHANNELS
    ensures UnderWay(s, t, channel, k) ==> Gridded(s.param[channel]) && QuietLink(s, channel) && SelfChained(s, channel)
    ensures UnderWay(s, t, channel, k) ==> Valid(t) && Stands(s, t, channel, k) && k < Events(s.param[channel]) <= SERVICE_LIMIT
  {
    && channel < CHANNELS && |s.param| == PARAMS && |s.qchmap| == QCHANNELS && SelfChained(s, channel)
    && Valid(t) && k < Events(s.param[channel]) && Stands(s, t, channel, k)
  }

  /** The plan of what one more event of the channel sets in motion. */
  ghost function ChainPlan(t: Engine, channel: nat, k: nat): Plan
    requires Valid(t) && channel < CHANNELS && k < SERVICE_LIMIT
  {
    PlanOf(t, [Event(Dma, channel)], k)
  }

  lemma {:induction false} ChainFinishes(s: Engine, t: Engine, channel: nat, k: nat)
    requires UnderWay(s, t, channel, k)
    ensures Finishes(s, channel, k, ChainPlan(t, channel, k))
    decreases Events(s.param[channel]) - k
  {
    hide *;
    ChainStep(s, t, channel, k);
    if k + 1 < Events(s.param[channel]) {
      ChainFinishes(s, Completed(t, Event(Dma, channel), channel), channel, k + 1);
      FinishesSooner(s, channel, k, OwnMoves(t, channel), ChainPlan(Completed(t, Event(Dma, channel), channel), channel, k + 1));
    }
  }

  /** One request of such a transfer: it is the last, or sets off the next. */
  lemma ChainStep(s: Engine, t: Engine, channel: nat, k: nat)
    requires UnderWay(s, t, channel, k)
    ensures |t.param| == PARAMS && |t.qchmap| == QCHANNELS && |t.drae| == REGIONS && ValidParam(t.param[channel])
    ensures var p, u := s.param[channel], Completed(t, Event(Dma, channel), channel);
            && FirstMoves(p, channel, k + 1) == FirstMoves(p, channel, k) + OwnMoves(t, channel)
            && if k + 1 == Events(p) then Finishes(s, channel, k, ChainPlan(t, channel, k))
               else UnderWay(s, u, channel, k + 1)
                    && var rest := ChainPlan(u, channel, k + 1);
                       ChainPlan(t, channel, k) == rest.(moves := OwnMoves(t, channel) + rest.moves)
  {
    assert SERVICE_LIMIT == 1048576;
    hide *;
    var p, e := s.param[channel], Event(Dma, channel);
    Sizes(t);
    StandsNext(s, t, e, channel, k);
    ItselfSetOff(s, t, channel, k);
    FirstMovesGrow(p, channel, k);
    OwnMovesAre(t, channel);
    if k + 1 == Events(p) {
      ChainOnce(t, channel, k);
      FinishesLast(s, channel, k, OwnMoves(t, channel), Completed(t, e, channel));
    } else {
      CompletedValid(t, e, channel);
      StillUnderWay(s, t, Completed(t, e, channel), channel, k);
      PlanOnward(t, channel, k);
    }
  }

  lemma ChainOnce(t: Engine, channel: nat, k: nat)
    requires Valid(t) && channel < CHANNELS && ValidParam(t.param[channel]) && SetsOff(t, channel) == [] && k < SERVICE_LIMIT
    ensures ChainPlan(t, channel, k) == Plan(true, Completed(t, Event(Dma, channel), channel), OwnMoves(t, channel))
  {
    PlanOnce(t, channel, k);
    hide Valid, ValidParam, PlanOf, Completed, OwnMoves, SetsOff;
  }

  lemma StillUnderWay(s: Engine, t: Engine, u: Engine, channel: nat, k: nat)
    requires UnderWay(s, t, channel, k) && k + 1 < Events(s.param[channel]) && Valid(u) && Stands(s, u, channel, k + 1)
    ensures UnderWay(s, u, channel, k + 1)
  {
    hide Valid, SelfChained, Stands, Events;
  }

  lemma OwnMovesAre(s: Engine, set_: nat)
    requires set_ < |s.param|
    ensures OwnMoves(s, set_) == Tagged(set_, MovesOf(s.param[set_]), s.param[set_].ACnt())
  {
  }

  /** The plan of an event whose one request chains its own channel again. */
  lemma PlanOnward(t: Engine, channel: nat, k: nat)
    requires Valid(t) && channel < CHANNELS && ValidParam(t.param[channel]) && k + 2 <= SERVICE_LIMIT
    requires SetsOff(t, channel) == [Event(Dma, channel)] && Valid(Completed(t, Event(Dma, channel), channel))
    ensures var e := Event(Dma, channel);
            var rest := ChainPlan(Completed(t, e, channel), channel, k + 1);
            ChainPlan(t, channel, k) == rest.(moves := OwnMoves(t, channel) + rest.moves)
  {
    var e := Event(Dma, channel);
    assert e in [e] && [e][1..] + [e] == [e] && SetOf(t, e) == channel;
    hide Valid, ValidParam, Completed, OwnMoves, SetsOff;
  }

  lemma FinishesLast(s: Engine, channel: nat, k: nat, own: seq<Move>, u: Engine)
    requires channel < |s.param| == PARAMS && Gridded(s.param[channel]) && k + 1 == Events(s.param[channel])
    requires Stands(s, u, channel, k + 1)
    requires FirstMoves(s.param[channel], channel, k + 1) == FirstMoves(s.param[channel], channel, k) + own
    ensures Finishes(s, channel, k, Plan(true, u, own))
  {
    hide Stands, Gridded, FirstMoves, Events;
  }

  lemma FinishesSooner(s: Engine, channel: nat, k: nat, own: seq<Move>, rest: Plan)
    requires channel < |s.param| == PARAMS && Gridded(s.param[channel]) && Finishes(s, channel, k + 1, rest)
    requires FirstMoves(s.param[channel], channel, k + 1) == FirstMoves(s.param[channel], channel, k) + own
    ensures Finishes(s, channel, k, rest.(moves := own + rest.moves))
  {
    hide Stands, Gridded, FirstMoves, Events;
    var first := FirstMoves(s.param[channel], channel, k);
    assert first + (own + rest.moves) == (first + own) + rest.moves;
  }

  /**
   One event moves the whole grid: the work list it starts is served to its end, the engine is
   left as by a whole transfer, and the event is served exactly when every move of the grid is
   taken, rehearsed and real.
   */
  lemma OneEventMovesAll<D>(port: Port<D>, s: Engine, b: Bus<D>, channel: nat)
    requires BusOk(b) && Valid(s) && channel < CHANNELS && channel in s.eer && SelfChained(s, channel)
    ensures var moves, r := GridMoves(s.param[channel], channel), Signal(port, s, b, channel);
            && (r.ok <==> Carry(port, b, moves, false).ok && Carry(port, b, moves, true).ok)
            && (r.ok ==> Whole(s, r.engine, channel) && r.bus == Carry(port, b, moves, true).bus)
  {
    var t, e, p := Latched(s, channel), Event(Dma, channel), s.param[channel];
    assert |s.param| == PARAMS && |s.qchmap| == QCHANNELS && Gridded(p) && Last(p) >= 0;
    StandsAtFirst(s, channel);
    StandsLatched(s, s, channel, 0);
    SignalParts(port, s, b, channel);
    assert FirstMoves(p, channel, 0) == [];
    hide Latched, Valid, Signal, Rehearses, Stands, Service, Carry, PlanOf, FirstMoves, GridMoves, Gridded;
    assert UnderWay(s, t, channel, 0);
    ChainFinishes(s, t, channel, 0);
    var plan := ChainPlan(t, channel, 0);
    assert plan == PlanOf(t, [e], 0);
    hide SelfChained;
    ServiceIsPlan(port, t, b, [e], 0, false);
    ServiceIsPlan(port, t, b, [e], 0, true);
    AllMoves(s, plan.engine, channel);
    assert [] + plan.moves == plan.moves;
    hide Whole, Events;
  }

  // --------------------------------------------------- among other transfers

  /** No chaining to `channel`. */
  predicate ChainsElsewhere(p: Param, channel: nat) {
    p.Bit(OPT_TCCHEN) || p.Bit(OPT_ITCCHEN) ==> p.Tcc() != channel
  }

  /** Only events of its own channel reach the set: no set chains to it, and no enabled QDMA channel is mapped to it. */
  ghost predicate Private(s: Engine, channel: nat)
    requires |s.qchmap| == QCHANNELS
  {
    && (forall i | 0 <= i < |s.param| :: ChainsElsewhere(s.param[i], channel))
    && forall q | q in s.qeer && q < QCHANNELS :: s.qchmap[q] / 32 % 512 != channel
  }

  /** Work that reaches the set only through its own channel. */
  ghost predicate Away(s: Engine, pending: seq<Event>, channel: nat)
    requires |s.qchmap| == QCHANNELS
  {
    forall e | e in pending && e.kind == Qdma && e.channel < QCHANNELS :: s.qchmap[e.channel] / 32 % 512 != channel
  }

  /** How many events of the channel wait in a work list. */
  function Mine(pending: seq<Event>, channel: nat): nat {
    if pending == [] then 0 else (if pending[0] == Event(Dma, channel) then 1 else 0) + Mine(pending[1..], channel)
  }

  /** The moves a set's own requests make. */
  function Own(moves: seq<Move>, set_: nat): seq<Move> {
    if moves == [] then [] else (if moves[0].set_ == set_ then [moves[0]] else []) + Own(moves[1..], set_)
  }

  lemma OwnFirst(moves: seq<Move>, set_: nat)
    ensures Own([], set_) == []
    ensures moves != [] ==> Own(moves, set_) == (if moves[0].set_ == set_ then [moves[0]] else []) + Own(moves[1..], set_)
  {
  }

  lemma {:induction false} OwnConcat(a: seq<Move>, b: seq<Move>, set_: nat)
    ensures Own(a + b, set_) == Own(a, set_) + Own(b, set_)
    decreases |a|
  {
    hide *;
    OwnFirst(a, set_);
    if a == [] {
      assert a + b == b;
    } else {
      OwnFirst(a + b, set_);
      assert (a + b)[0] == a[0] && (a + b)[1..] == a[1..] + b;
      OwnConcat(a[1..], b, set_);
    }
  }

  lemma {:induction false} OwnTagged(set_: nat, arrays: seq<(nat, nat)>, n: nat, channel: nat)
    ensures Own(Tagged(set_, arrays, n), channel) == if set_ == channel then Tagged(set_, arrays, n) else []
    decreases |arrays|
  {
    var moves := Tagged(set_, arrays, n);
    if arrays != [] {
      assert moves[0].set_ == set_ && moves[1..] == Tagged(set_, arrays[1..], n);
      OwnTagged(set_, arrays[1..], n, channel);
      assert [moves[0]] + moves[1..] == moves;
    }
  }

  lemma {:induction false} MineConcat(a: seq<Event>, b: seq<Event>, channel: nat)
    ensures Mine(a + b, channel) == Mine(a, channel) + Mine(b, channel)
    decreases |a|
  {
    if a == [] {
      assert a + b == b;
    } else {
      assert (a + b)[0] == a[0] && (a + b)[1..] == a[1..] + b;
      MineConcat(a[1..], b, channel);
    }
  }

  lemma {:induction false} MineNone(es: seq<Event>, channel: nat)
    requires Event(Dma, channel) !in es
    ensures Mine(es, channel) == 0
    decreases |es|
  {
    if es != [] {
      assert es[0] in es;
      MineNone(es[1..], channel);
    }
  }

  lemma {:induction false} LinkedEnabled(s: Engine, set_: nat, q: nat)
    requires |s.qchmap| == QCHANNELS && q <= QCHANNELS
    ensures forall c | c in Linked(s, set_, q) :: c in s.qeer && c < QCHANNELS
    decreases QCHANNELS - q
  {
    if q < QCHANNELS {
      LinkedEnabled(s, set_, q + 1);
    }
  }

  /** What any request sets off reaches a private set no more than before. */
  lemma SetsOffAway(s: Engine, set_: nat, channel: nat)
    requires |s.param| == PARAMS && |s.qchmap| == QCHANNELS && set_ < PARAMS && Private(s, channel)
    ensures Away(s, SetsOff(s, set_), channel) && Event(Dma, channel) !in SetsOff(s, set_)
  {
    var p, cs := s.param[set_], Linked(s, set_, 0);
    assert ChainsElsewhere(p, channel);
    assert p.Chains() ==> p.Tcc() != channel;
    LinkedEnabled(s, set_, 0);
    hide Linked, Relinks, p.Chains, p.Tcc, ChainsElsewhere;
    forall e | e in Qdmas(cs) ensures e.kind == Qdma && (e.channel < QCHANNELS ==> s.qchmap[e.channel] / 32 % 512 != channel) {
      var i :| 0 <= i < |cs| && Qdmas(cs)[i] == e;
      assert cs[i] in cs;
    }
    hide Qdmas;
    var linked, chained := if Relinks(p) then Qdmas(cs) else [], if p.Chains() then [Event(Dma, p.Tcc())] else [];
    assert SetsOff(s, set_) == linked + chained;
  }

  lemma UpdatedElsewhere(param: seq<Param>, set_: nat, channel: nat)
    requires set_ < |param| == PARAMS && ValidParam(param[set_])
    requires forall i | 0 <= i < PARAMS :: ChainsElsewhere(param[i], channel)
    ensures ChainsElsewhere(Updated(param, set_), channel)
  {
    var p := param[set_];
    assert Advance(p).opt == p.opt;
    assert ChainsElsewhere(p, channel) && ChainsElsewhere(NULL_SET, channel);
    assert p.Link() != 0xffff ==> ChainsElsewhere(param[p.Link() % 0x4000 / 32], channel);
    hide Advance, p.Final, p.Static;
  }

  /** A request keeps a set private, and leaves it alone unless it is the set's own. */
  lemma PrivateKept(s: Engine, e: Event, set_: nat, channel: nat)
    requires Valid(s) && set_ < PARAMS && ValidParam(s.param[set_]) && Private(s, channel)
    ensures var t := Completed(s, e, set_);
            && t.qchmap == s.qchmap && t.qeer == s.qeer && t.eer == s.eer && Private(t, channel)
            && t.param == s.param[set_ := Updated(s.param, set_)]
  {
    UpdatedElsewhere(s.param, set_, channel);
    CompletedSteers(s, e, set_);
    hide Valid, ValidParam, Completed, Updated, ChainsElsewhere;
  }

  lemma CompletedSteers(s: Engine, e: Event, set_: nat)
    requires Valid(s) && set_ < PARAMS && ValidParam(s.param[set_])
    ensures var t := Completed(s, e, set_);
            t.param == s.param[set_ := Updated(s.param, set_)] && t.qchmap == s.qchmap && t.qeer == s.qeer && t.eer == s.eer
  {
    hide ValidParam, Updated, Relinks, LatchAll, Linked, Newly;
  }

  /** Where the set of a transfer stands after `k` of its requests, up to the last. */
  ghost predicate Walks(p: Param, k: nat, s: Engine, channel: nat)
    requires channel < |s.param|
  {
    k < Events(p) ==> s.param[channel] == After(p, k)
  }

  lemma WalksOn(p: Param, k: nat, param: seq<Param>, channel: nat)
    requires Gridded(p) && channel < |param| == PARAMS && k < Events(p) && param[channel] == After(p, k)
    ensures ValidParam(param[channel]) && (k + 1 < Events(p) ==> Updated(param, channel) == After(p, k + 1))
  {
    FoundAt(p, k);
    FoundOptions(p, k);
    hide Gridded, Advance, ValidParam, Relinks;
  }

  /** What a plan does of the transfer in `p`, `k` requests of which have gone before. */
  ghost predicate DoesItsPart(p: Param, channel: nat, k: nat, m: nat, s: Engine, plan: Plan)
    requires |s.qchmap| == QCHANNELS
  {
    && FirstMoves(p, channel, k) + Own(plan.moves, channel) == FirstMoves(p, channel, k + m)
    && |plan.engine.param| == PARAMS && plan.engine.qchmap == s.qchmap && plan.engine.qeer == s.qeer && plan.engine.eer == s.eer
    && channel < PARAMS && Private(plan.engine, channel) && Walks(p, k + m, plan.engine, channel)
  }

  lemma HeadIs(s: Engine, channel: nat, e: Event)
    requires Valid(s) && Known(e) && channel < CHANNELS && Away(s, [e], channel)
    ensures SetOf(s, e) < PARAMS && (SetOf(s, e) == channel <==> e == Event(Dma, channel))
    ensures Mine([e], channel) == if e == Event(Dma, channel) then 1 else 0
  {
    assert e in [e] && [e][1..] == [];
    ServiceSplits(s, e);
    hide Valid;
  }

  /** The head of the list, seen from the transfer: its next request, or another's. */
  lemma HeadMoves(p: Param, s: Engine, channel: nat, set_: nat, k: nat)
    requires |s.param| == PARAMS && Gridded(p) && channel < CHANNELS && set_ < PARAMS && Walks(p, k, s, channel)
    requires set_ == channel ==> k < Events(p)
    ensures FirstMoves(p, channel, k) + Own(OwnMoves(s, set_), channel) ==
            FirstMoves(p, channel, k + if set_ == channel then 1 else 0)
  {
    OwnTagged(set_, MovesOf(s.param[set_]), s.param[set_].ACnt(), channel);
    hide Gridded, MovesOf, Tagged, Events, After, FirstMoves, Own;
    if set_ == channel {
      FirstMovesGrow(p, channel, k);
    }
  }

  lemma HeadAway(s: Engine, t: Engine, pending: seq<Event>, more: seq<Event>, channel: nat)
    requires |s.qchmap| == QCHANNELS && pending != [] && t.qchmap == s.qchmap && Away(s, pending, channel)
    requires Away(s, more, channel) && Event(Dma, channel) !in more
    ensures Away(s, [pending[0]], channel) && Away(t, pending[1..] + more, channel)
    ensures Mine(pending, channel) == Mine([pending[0]], channel) + Mine(pending[1..] + more, channel)
  {
    MineConcat(pending[1..], more, channel);
    MineNone(more, channel);
    MineConcat([pending[0]], pending[1..], channel);
    assert [pending[0]] + pending[1..] == pending;
    assert pending[0] in pending && forall e | e in pending[1..] :: e in pending;
    hide Mine;
  }

  /**
   Whatever a work list serves besides, chained, linked and QDMA requests of other sets
   included, the requests of a private set move the next arrays of its grid and no others.
   */
  lemma {:induction false} PlanOwn(p: Param, s: Engine, channel: nat, pending: seq<Event>, served: nat, k: nat)
    requires Valid(s) && Gridded(p) && channel < CHANNELS && Private(s, channel) && Walks(p, k, s, channel)
    requires (forall e | e in pending :: Known(e)) && served + |pending| <= SERVICE_LIMIT && Away(s, pending, channel)
    requires k + Mine(pending, channel) <= Events(p) && PlanOf(s, pending, served).ok
    ensures DoesItsPart(p, channel, k, Mine(pending, channel), s, PlanOf(s, pending, served))
    decreases SERVICE_LIMIT - served
  {
    hide Gridded, ValidParam, Private, Away, Walks, Completed, SetsOff, OwnMoves, FirstMoves, Events, Own, Mine, DoesItsPart;
    if pending == [] {
      PartNone(p, channel, k, s);
    } else {
      var e := pending[0];
      assert e in pending;
      ServiceSplits(s, e);
      var set_ := SetOf(s, e);
      var t, more := Completed(s, e, set_), SetsOff(s, set_);
      SetsOffAway(s, set_, channel);
      CompletedValid(s, e, set_);
      PrivateKept(s, e, set_, channel);
      HeadAway(s, t, pending, more, channel);
      HeadIs(s, channel, e);
      HeadMoves(p, s, channel, set_, k);
      WalksAfter(p, k, s, t, e, channel);
      var m := Mine([e], channel);
      PlanOwn(p, t, channel, pending[1..] + more, served + 1, k + m);
      PartJoins(p, channel, k, m, Mine(pending[1..] + more, channel), s, t, OwnMoves(s, set_),
                PlanOf(t, pending[1..] + more, served + 1));
    }
  }

  lemma PartNone(p: Param, channel: nat, k: nat, s: Engine)
    requires |s.param| == PARAMS && |s.qchmap| == QCHANNELS && channel < CHANNELS && Private(s, channel) && Walks(p, k, s, channel)
    ensures DoesItsPart(p, channel, k, Mine([], channel), s, Plan(true, s, []))
  {
    assert FirstMoves(p, channel, k) + Own([], channel) == FirstMoves(p, channel, k + 0);
    hide FirstMoves, Private, Walks;
  }

  lemma PartJoins(p: Param, channel: nat, k: nat, m: nat, n: nat, s: Engine, t: Engine, own: seq<Move>, rest: Plan)
    requires |s.qchmap| == QCHANNELS && t.qchmap == s.qchmap && t.qeer == s.qeer && t.eer == s.eer
    requires FirstMoves(p, channel, k) + Own(own, channel) == FirstMoves(p, channel, k + m)
    requires DoesItsPart(p, channel, k + m, n, t, rest)
    ensures DoesItsPart(p, channel, k, m + n, s, rest.(moves := own + rest.moves))
  {
    OwnConcat(own, rest.moves, channel);
    hide FirstMoves, Own, Private, Walks;
    assert FirstMoves(p, channel, k) + (Own(own, channel) + Own(rest.moves, channel))
        == (FirstMoves(p, channel, k) + Own(own, channel)) + Own(rest.moves, channel);
  }

  lemma WalksAfter(p: Param, k: nat, s: Engine, t: Engine, e: Event, channel: nat)
    requires Valid(s) && Known(e) && SetOf(s, e) < PARAMS && Gridded(p) && channel < CHANNELS && Walks(p, k, s, channel)
    requires SetOf(s, e) == channel <==> e == Event(Dma, channel)
    requires k + Mine([e], channel) <= Events(p) && ValidParam(s.param[SetOf(s, e)])
    requires t.param == s.param[SetOf(s, e) := Updated(s.param, SetOf(s, e))]
    ensures |t.param| == PARAMS && Walks(p, k + Mine([e], channel), t, channel)
  {
    assert [e][1..] == [];
    if e == Event(Dma, channel) {
      WalksOn(p, k, s.param, channel);
    }
    hide Valid, Gridded, ValidParam, Updated, After, Events, SetOf;
  }

  // ----------------------------------------------------- any run of events

  /** Events on any channels, one after another, stopping if one is refused. */
  function Signals<D>(port: Port<D>, s: Engine, b: Bus<D>, channels: seq<nat>): (r: Run<D>)
    requires BusOk(b) && Valid(s)
    ensures BusOk(r.bus) && r.bus.config == b.config && (r.ok ==> Valid(r.engine))
    decreases |channels|
  {
    if channels == [] then Run(true, s, b)
    else
      var r := Signal(port, s, b, channels[0]);
      if !r.ok then r else Signals(port, r.engine, r.bus, channels[1..])
  }

  /** All that they set in motion. */
  ghost function RunPlan(s: Engine, channels: seq<nat>): (r: Plan)
    requires Valid(s)
    ensures r.ok ==> Valid(r.engine)
    decreases |channels|
  {
    if channels == [] then Plan(true, s, [])
    else
      var first := EventPlan(s, channels[0]);
      if !first.ok then first
      else var rest := RunPlan(first.engine, channels[1..]); rest.(moves := first.moves + rest.moves)
  }

  lemma {:induction false} SignalsArePlan<D>(port: Port<D>, s: Engine, b: Bus<D>, channels: seq<nat>)
    requires BusOk(b) && Valid(s) && Signals(port, s, b, channels).ok
    ensures var plan, r := RunPlan(s, channels), Signals(port, s, b, channels);
            plan.ok && r.engine == plan.engine && Carry(port, b, plan.moves, true) == Moved(true, r.bus)
    decreases |channels|
  {
    hide Signal, EventPlan, Valid, BusOk, Carry;
    CarryNone(port, b, true);
    if channels != [] {
      SignalIsPlan(port, s, b, channels[0]);
      var r := Signal(port, s, b, channels[0]);
      SignalsArePlan(port, r.engine, r.bus, channels[1..]);
      CarryConcat(port, b, EventPlan(s, channels[0]).moves, RunPlan(r.engine, channels[1..]).moves, true);
    }
  }

  function Times(channels: seq<nat>, channel: nat): nat {
    if channels == [] then 0 else (if channels[0] == channel then 1 else 0) + Times(channels[1..], channel)
  }

  lemma EventOwn(p: Param, s: Engine, channel: nat, x: nat, k: nat)
    requires Valid(s) && Gridded(p) && channel < CHANNELS && channel in s.eer && Private(s, channel) && Walks(p, k, s, channel)
    requires k + (if x == channel then 1 else 0) <= Events(p) && EventPlan(s, x).ok
    ensures DoesItsPart(p, channel, k, if x == channel then 1 else 0, s, EventPlan(s, x))
  {
    if x !in s.eer {
      var t := s.(er := s.er + {x});
      assert Private(t, channel) && Walks(p, k, t, channel);
      hide Valid, Private, Walks, FirstMoves, Gridded, Events;
      assert FirstMoves(p, channel, k) + Own([], channel) == FirstMoves(p, channel, k + 0);
    } else {
      var l, e := Latched(s, x), Event(Dma, x);
      assert l.qchmap == s.qchmap && l.qeer == s.qeer && l.eer == s.eer && l.param == s.param;
      assert Private(l, channel) && Walks(p, k, l, channel);
      assert e in [e] && [e][1..] == [] && Mine([e], channel) == (if x == channel then 1 else 0);
      assert forall y | y in [e] :: y == e;
      assert Away(l, [e], channel);
      hide Valid, Private, Walks, Latched, Gridded, Events, PlanOf, Mine, Away;
      PlanOwn(p, l, channel, [e], 0, k);
      hide FirstMoves;
    }
  }

  /** Over any run of events the requests of a private set do their part. */
  lemma {:induction false} RunOwn(p: Param, s: Engine, channel: nat, channels: seq<nat>, k: nat)
    requires Valid(s) && Gridded(p) && channel < CHANNELS && channel in s.eer && Private(s, channel) && Walks(p, k, s, channel)
    requires k + Times(channels, channel) <= Events(p) && RunPlan(s, channels).ok
    ensures DoesItsPart(p, channel, k, Times(channels, channel), s, RunPlan(s, channels))
    decreases |channels|
  {
    hide *;
    Sizes(s);
    if channels == [] {
      RunPlanNone(s, channel);
      PartNone(p, channel, k, s);
    } else {
      var m, x, rest := if channels[0] == channel then 1 else 0, channels[0], channels[1..];
      RunPlanSplits(s, channels, channel);
      var first := EventPlan(s, x);
      EventOwn(p, s, channel, x, k);
      PartKeeps(p, channel, k, m, s, first);
      RunOwn(p, first.engine, channel, rest, k + m);
      PartJoins(p, channel, k, m, Times(rest, channel), s, first.engine, first.moves, RunPlan(first.engine, rest));
    }
  }

  lemma Sizes(s: Engine)
    requires Valid(s)
    ensures |s.param| == PARAMS && |s.qchmap| == QCHANNELS && |s.drae| == REGIONS
  {
  }

  lemma RunPlanNone(s: Engine, channel: nat)
    requires Valid(s)
    ensures RunPlan(s, []) == Plan(true, s, []) && Times([], channel) == Mine([], channel) == 0
  {
  }

  lemma RunPlanSplits(s: Engine, channels: seq<nat>, channel: nat)
    requires Valid(s) && channels != [] && RunPlan(s, channels).ok
    ensures Times(channels, channel) == (if channels[0] == channel then 1 else 0) + Times(channels[1..], channel)
    ensures var first := EventPlan(s, channels[0]);
            && first.ok && Valid(first.engine)
            && var rest := RunPlan(first.engine, channels[1..]);
               rest.ok && RunPlan(s, channels) == rest.(moves := first.moves + rest.moves)
  {
    hide Valid, EventPlan;
  }

  lemma PartKeeps(p: Param, channel: nat, k: nat, m: nat, s: Engine, plan: Plan)
    requires |s.qchmap| == QCHANNELS && DoesItsPart(p, channel, k, m, s, plan)
    ensures |plan.engine.param| == PARAMS && plan.engine.qchmap == s.qchmap && plan.engine.qeer == s.qeer && plan.engine.eer == s.eer
    ensures channel < PARAMS && Private(plan.engine, channel) && Walks(p, k + m, plan.engine, channel)
    ensures FirstMoves(p, channel, k) + Own(plan.moves, channel) == FirstMoves(p, channel, k + m)
  {
    hide FirstMoves, Private, Walks;
  }

  /**
   A set that only its own channel's events reach, with any links and any chaining to other
   channels: over every accepted run of events, on any channels in any order and with all they
   set off, its own requests move the first arrays of its grid in order, one array or row for
   each event of the channel, and the set is in closed form until the last.
   */
  lemma AmongOthers<D>(port: Port<D>, s: Engine, b: Bus<D>, channel: nat, channels: seq<nat>)
    requires BusOk(b) && Valid(s) && channel < CHANNELS && channel in s.eer && Gridded(s.param[channel]) && Private(s, channel)
    requires Times(channels, channel) <= Events(s.param[channel]) && Signals(port, s, b, channels).ok
    ensures var p, k, moves, r := s.param[channel], Times(channels, channel), RunPlan(s, channels).moves, Signals(port, s, b, channels);
            && Own(moves, channel) == Tagged(channel, Grid(p, Count(p, k)), p.ACnt())
            && (k < Events(p) ==> r.engine.param[channel] == After(p, k))
            && Carry(port, b, moves, true) == Moved(true, r.bus)
  {
    var p, k := s.param[channel], Times(channels, channel);
    assert |s.qchmap| == QCHANNELS && |s.param| == PARAMS;
    assert Walks(p, 0, s, channel) && FirstMoves(p, channel, 0) == [];
    hide Valid, Gridded, Private, Events, Signals, RunPlan, BusOk, Carry;
    SignalsArePlan(port, s, b, channels);
    RunOwn(p, s, channel, channels, 0);
    MovesTheGrid(p, k);
    PartKeeps(p, channel, 0, k, s, RunPlan(s, channels));
    hide Own, MovedBy, Grid, Count, After, Tagged;
    assert [] + Own(RunPlan(s, channels).moves, channel) == Own(RunPlan(s, channels).moves, channel);
  }
}
