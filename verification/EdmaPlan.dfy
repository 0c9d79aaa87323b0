/**
 Non-interference of the EDMA engine.  What a service run will move, and the registers it
 will leave, is a plan drawn from the registers alone; running it, as a preview or for real,
 on any memory and any peripherals, is carrying the plan out array by array.
 */
module EdmaPlan {
  import opened Common
  import opened Memory
  import opened Edma

  /** One array to move, and the set whose request moves it. */
  datatype Move = Move(set_: nat, src: nat, dst: nat, n: nat)

  datatype Plan = Plan(ok: bool, engine: Engine, moves: seq<Move>)

  function Tagged(set_: nat, arrays: seq<(nat, nat)>, n: nat): (r: seq<Move>)
    ensures |r| == |arrays|
  {
    seq(|arrays|, i requires 0 <= i < |arrays| => Move(set_, arrays[i].0, arrays[i].1, n))
  }

  /** The arrays of one request of set `set_`. */
  function OwnMoves(s: Engine, set_: nat): seq<Move>
    requires set_ < |s.param|
  {
    Tagged(set_, MovesOf(s.param[set_]), s.param[set_].ACnt())
  }

  /** The plan of a work list; it fails at a set that is not legal, or when the list grows too long. */
  function PlanOf(s: Engine, pending: seq<Event>, served: nat): (r: Plan)
    requires Valid(s) && (forall e | e in pending :: Known(e)) && served + |pending| <= SERVICE_LIMIT
    ensures r.ok ==> Valid(r.engine)
    decreases SERVICE_LIMIT - served
  {
    if pending == [] then Plan(true, s, [])
    else
      var e := pending[0];
      assert e in pending;
      var set_ := SetOf(s, e);
      if !ValidParam(s.param[set_]) then Plan(false, s, [])
      else
        var more := SetsOff(s, set_);
        CompletedValid(s, e, set_);
        if served + |pending| + |more| > SERVICE_LIMIT then
          Plan(false, Stopped(s, e, set_, SERVICE_LIMIT - served - |pending|), OwnMoves(s, set_))
        else
          var rest := PlanOf(Completed(s, e, set_), pending[1..] + more, served + 1);
          rest.(moves := OwnMoves(s, set_) + rest.moves)
  }

  /** Read, check, and with `commit` write, move after move until one is refused. */
  function Carry<D>(port: Port<D>, b: Bus<D>, moves: seq<Move>, commit: bool): (r: Moved<D>)
    requires BusOk(b)
    ensures BusOk(r.bus) && r.bus.config == b.config
    ensures !commit ==> r.bus == b
    decreases |moves|
  {
    if moves == [] then Moved(true, b)
    else
      var m := moves[0];
      var data := Read(b, m.src, m.n);
      if data.None? || WriteBytes(port, b, m.dst, data.value, false).None? then Moved(false, b)
      else
        var written := WriteBytes(port, b, m.dst, data.value, commit);
        if written.None? then Moved(false, b) else Carry(port, written.value, moves[1..], commit)
  }

  // ------------------------------------------------------- a run is its plan

  lemma {:induction false} CarryCopies<D>(port: Port<D>, b: Bus<D>, set_: nat, arrays: seq<(nat, nat)>, n: nat,
                                          rest: seq<Move>, commit: bool)
    requires BusOk(b)
    ensures var c := Copy(port, b, arrays, n, commit);
            Carry(port, b, Tagged(set_, arrays, n) + rest, commit) == if c.ok then Carry(port, c.bus, rest, commit) else c
    decreases |arrays|
  {
    var moves := Tagged(set_, arrays, n) + rest;
    if arrays == [] {
      assert moves == rest;
    } else {
      assert moves[0] == Move(set_, arrays[0].0, arrays[0].1, n) && moves[1..] == Tagged(set_, arrays[1..], n) + rest;
      hide Tagged;
      var data := Read(b, arrays[0].0, n);
      hide Read, BusOk;
      if data.Some? && WriteBytes(port, b, arrays[0].1, data.value, false).Some? {
        var written := WriteBytes(port, b, arrays[0].1, data.value, commit);
        assert !commit ==> written == Some(b) by { CheckedIsSame(port, b, arrays[0].1, data.value); }
        hide WriteBytes;
        if written.Some? {
          CarryCopies(port, written.value, set_, arrays[1..], n, rest, commit);
        }
      }
    }
  }

  lemma CheckedIsSame<D>(port: Port<D>, b: Bus<D>, a: nat, data: seq<Byte>)
    requires BusOk(b)
    ensures WriteBytes(port, b, a, data, false).Some? ==> WriteBytes(port, b, a, data, false) == Some(b)
  {
  }

  lemma {:induction false} CarryConcat<D>(port: Port<D>, b: Bus<D>, front: seq<Move>, back: seq<Move>, commit: bool)
    requires BusOk(b)
    ensures var c := Carry(port, b, front, commit);
            Carry(port, b, front + back, commit) == if c.ok then Carry(port, c.bus, back, commit) else c
    decreases |front|
  {
    if front == [] {
      assert front + back == back;
    } else {
      assert (front + back)[0] == front[0] && (front + back)[1..] == front[1..] + back;
      var data := Read(b, front[0].src, front[0].n);
      hide Read, BusOk, WriteBytes;
      if data.Some? && WriteBytes(port, b, front[0].dst, data.value, commit).Some? {
        CarryConcat(port, WriteBytes(port, b, front[0].dst, data.value, commit).value, front[1..], back, commit);
      }
    }
  }

  /** What a run comes to, given its plan. */
  ghost predicate Follows<D>(r: Run<D>, plan: Plan, x: Moved<D>) {
    r.ok == (plan.ok && x.ok) && r.bus == x.bus && (x.ok ==> r.engine == plan.engine)
  }

  /**
   For every memory and every peripheral, a service run is its plan carried out: it succeeds
   if and only if the plan stands and every move is taken, it leaves the bus as the moves
   leave it, and once every move is taken its registers are the plan's, bytes notwithstanding.
   */
  lemma {:induction false} ServiceIsPlan<D>(port: Port<D>, s: Engine, b: Bus<D>, pending: seq<Event>, served: nat, commit: bool)
    requires BusOk(b) && Valid(s) && (forall e | e in pending :: Known(e)) && served + |pending| <= SERVICE_LIMIT
    ensures var plan := PlanOf(s, pending, served);
            Follows(Service(port, s, b, pending, served, commit), plan, Carry(port, b, plan.moves, commit))
    decreases SERVICE_LIMIT - served
  {
    hide Completed, Stopped, SetsOff, ValidParam, Copy, BusOk, Valid, Carry, OwnMoves;
    if pending == [] {
      CarryNone(port, b, commit);
    } else {
      var e := pending[0];
      assert e in pending;
      ServiceSplits(s, e);
      var set_ := SetOf(s, e);
      if ValidParam(s.param[set_]) {
        CompletedValid(s, e, set_);
        var next, plan := pending[1..] + SetsOff(s, set_), PlanOf(s, pending, served);
        CarryOwn(port, b, s, set_, plan.moves[|OwnMoves(s, set_)|..], commit);
        var t := Transfer(port, b, s.param[set_], commit);
        if served + |pending| + |SetsOff(s, set_)| <= SERVICE_LIMIT {
          var rest := PlanOf(Completed(s, e, set_), next, served + 1);
          assert plan.moves == OwnMoves(s, set_) + rest.moves;
          assert plan.moves[|OwnMoves(s, set_)|..] == rest.moves;
          if t.ok {
            ServiceIsPlan(port, Completed(s, e, set_), t.bus, next, served + 1, commit);
          }
        } else {
          CarryNone(port, t.bus, commit);
          assert plan.moves == OwnMoves(s, set_) + plan.moves[|OwnMoves(s, set_)|..];
        }
      } else {
        CarryNone(port, b, commit);
      }
    }
  }

  lemma CarryNone<D>(port: Port<D>, b: Bus<D>, commit: bool)
    requires BusOk(b)
    ensures Carry(port, b, [], commit) == Moved(true, b)
  {
  }

  lemma ServiceSplits(s: Engine, e: Event)
    requires Valid(s) && Known(e)
    ensures |s.param| == PARAMS && |s.qchmap| == QCHANNELS && |s.drae| == REGIONS && SetOf(s, e) < PARAMS
  {
  }

  lemma CarryOwn<D>(port: Port<D>, b: Bus<D>, s: Engine, set_: nat, rest: seq<Move>, commit: bool)
    requires BusOk(b) && set_ < |s.param| && ValidParam(s.param[set_])
    ensures var t := Transfer(port, b, s.param[set_], commit);
            Carry(port, b, OwnMoves(s, set_) + rest, commit) == if t.ok then Carry(port, t.bus, rest, commit) else t
  {
    var p := s.param[set_];
    CarryCopies(port, b, set_, MovesOf(p), p.ACnt(), rest, commit);
    hide Carry, Copy, Tagged, ValidParam;
  }

  /** What an event sets in motion: nothing beyond its latch while its channel is disabled. */
  ghost function EventPlan(s: Engine, channel: nat): (r: Plan)
    requires Valid(s)
    ensures r.ok ==> Valid(r.engine)
  {
    if channel >= CHANNELS then Plan(false, s, [])
    else if channel !in s.eer then Plan(true, s.(er := s.er + {channel}), [])
    else PlanOf(Latched(s, channel), [Event(Dma, channel)], 0)
  }

  /** An event that is accepted is its plan carried out. */
  lemma SignalIsPlan<D>(port: Port<D>, s: Engine, b: Bus<D>, channel: nat)
    requires BusOk(b) && Valid(s)
    ensures var plan, r := EventPlan(s, channel), Signal(port, s, b, channel);
            r.ok ==> plan.ok && r.engine == plan.engine && Carry(port, b, plan.moves, true) == Moved(true, r.bus)
  {
    CarryNone(port, b, true);
    if channel < CHANNELS && channel in s.eer {
      SignalParts(port, s, b, channel);
      hide Valid, Service, PlanOf, Latched, Signal, Rehearses, Carry;
      ServiceIsPlan(port, Latched(s, channel), b, [Event(Dma, channel)], 0, true);
    }
  }

  // ------------------------------------------- engines that agree on control

  /** The registers that steer a service run. */
  ghost predicate SameControl(s: Engine, t: Engine) {
    s.param == t.param && s.qchmap == t.qchmap && s.qeer == t.qeer
  }

  lemma SameCompleted(s: Engine, t: Engine, e: Event, set_: nat)
    requires Valid(s) && Valid(t) && SameControl(s, t) && set_ < PARAMS && ValidParam(s.param[set_])
    ensures SameControl(Completed(s, e, set_), Completed(t, e, set_))
    ensures SetsOff(s, set_) == SetsOff(t, set_)
  {
    SameLinked(s, t, set_, 0);
    hide ValidParam, Updated, Relinks, LatchAll, Linked, Newly;
  }

  /** What two plans share when they are drawn from engines that agree on PaRAM, QCHMAP and QEER. */
  ghost predicate SamePlan(x: Plan, y: Plan) {
    x.ok == y.ok && x.moves == y.moves && (x.ok ==> SameControl(x.engine, y.engine))
  }

  /** The event latches, the interrupt registers and the counters have no say in what is moved. */
  lemma {:induction false} ControlDecides(s: Engine, t: Engine, pending: seq<Event>, served: nat)
    requires Valid(s) && Valid(t) && SameControl(s, t)
    requires (forall e | e in pending :: Known(e)) && served + |pending| <= SERVICE_LIMIT
    ensures SamePlan(PlanOf(s, pending, served), PlanOf(t, pending, served))
    decreases SERVICE_LIMIT - served
  {
    hide Valid, Completed, Stopped, SetsOff, ValidParam, Tagged, MovesOf;
    if pending != [] {
      var e := pending[0];
      assert e in pending;
      ServiceSplits(s, e);
      ServiceSplits(t, e);
      var set_ := SetOf(s, e);
      if ValidParam(s.param[set_]) {
        SameCompleted(s, t, e, set_);
        CompletedValid(s, e, set_);
        CompletedValid(t, e, set_);
        if served + |pending| + |SetsOff(s, set_)| <= SERVICE_LIMIT {
          ControlDecides(Completed(s, e, set_), Completed(t, e, set_), pending[1..] + SetsOff(s, set_), served + 1);
        }
      }
    }
  }

  /**
   Two runs that succeed, whatever their memories and peripherals and whether rehearsed or
   real, leave engines that agree on control if they began so, and equal ones if they began equal.
   */
  lemma RunsAgree<D, E>(p: Port<D>, q: Port<E>, s: Engine, t: Engine, b: Bus<D>, c: Bus<E>,
                        pending: seq<Event>, served: nat, one: bool, other: bool)
    requires BusOk(b) && BusOk(c) && Valid(s) && Valid(t) && SameControl(s, t)
    requires (forall e | e in pending :: Known(e)) && served + |pending| <= SERVICE_LIMIT
    requires Service(p, s, b, pending, served, one).ok && Service(q, t, c, pending, served, other).ok
    ensures var x, y := Service(p, s, b, pending, served, one).engine, Service(q, t, c, pending, served, other).engine;
            SameControl(x, y) && (s == t ==> x == y)
  {
    ServiceIsPlan(p, s, b, pending, served, one);
    ServiceIsPlan(q, t, c, pending, served, other);
    ControlDecides(s, t, pending, served);
    hide Service, PlanOf, Carry, SameControl, Valid, BusOk;
  }
}
