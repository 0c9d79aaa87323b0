/**
 The transactional bus: a register write, the transfers it causes and the McASP events they
 serve all run on trial copies behind a write buffer, and are committed together or not at
 all.  The result is what running the same directly on memory would have given.
 */
module EdmaBus {
  import opened Common
  import opened Memory
  import opened Edma

  /** The same bus with its staged writes carried out. */
  ghost function FlatBus<D>(b: Bus<D>): (r: Bus<D>)
    requires BusOk(b)
    ensures BusOk(r) && r.config == b.config && r.device == b.device
  {
    b.(store := Direct(Flat(b.store)))
  }

  lemma ReadFlat<D>(b: Bus<D>, a: nat, n: nat)
    requires BusOk(b)
    ensures Read(FlatBus(b), a, n) == Read(b, a, n)
  {
    if Span(b.config, a, n).Some? {
      ViewIsFlat(b.store, Span(b.config, a, n).value, n);
    }
  }

  lemma WriteFlat<D>(port: Port<D>, b: Bus<D>, a: nat, data: seq<Byte>, commit: bool)
    requires BusOk(b)
    ensures var w, f := WriteBytes(port, b, a, data, commit), WriteBytes(port, FlatBus(b), a, data, commit);
            (w.Some? <==> f.Some?) && (w.Some? ==> FlatBus(w.value) == f.value)
  {
    if Span(b.config, a, |data|).Some? {
      PutIsPoke(b.store, Span(b.config, a, |data|).value, data);
    }
  }

  lemma {:induction false} CopyFlat<D>(port: Port<D>, b: Bus<D>, moves: seq<(nat, nat)>, n: nat, commit: bool)
    requires BusOk(b)
    ensures var c, f := Copy(port, b, moves, n, commit), Copy(port, FlatBus(b), moves, n, commit);
            c.ok == f.ok && FlatBus(c.bus) == f.bus
    decreases |moves|
  {
    hide FlatBus, Read, WriteBytes, BusOk;
    if moves != [] {
      ReadFlat(b, moves[0].0, n);
      var data := Read(b, moves[0].0, n);
      if data.Some? {
        WriteFlat(port, b, moves[0].1, data.value, false);
        WriteFlat(port, b, moves[0].1, data.value, true);
        CopyFlat(port, b, moves[1..], n, commit);
        if WriteBytes(port, b, moves[0].1, data.value, true).Some? {
          CopyFlat(port, WriteBytes(port, b, moves[0].1, data.value, true).value, moves[1..], n, commit);
        }
      }
    }
  }

  ghost predicate SameRun<D>(r: Run<D>, f: Run<D>)
    requires BusOk(r.bus)
  {
    r.ok == f.ok && r.engine == f.engine && FlatBus(r.bus) == f.bus
  }

  /** Any service run over the write buffer is the run over plain memory. */
  lemma {:induction false} ServiceFlat<D>(port: Port<D>, s: Engine, b: Bus<D>, pending: seq<Event>, served: nat, commit: bool)
    requires BusOk(b) && Valid(s) && (forall e | e in pending :: Known(e)) && served + |pending| <= SERVICE_LIMIT
    ensures SameRun(Service(port, s, b, pending, served, commit), Service(port, s, FlatBus(b), pending, served, commit))
    decreases SERVICE_LIMIT - served
  {
    hide FlatBus, Copy, Completed, SetsOff, Stopped, BusOk, ValidParam;
    if pending != [] {
      var e := pending[0];
      assert e in pending;
      var set_ := SetOf(s, e);
      var p := s.param[set_];
      CopyFlat(port, b, MovesOf(p), p.ACnt(), commit);
      var t := Transfer(port, b, p, commit);
      if t.ok {
        CompletedValid(s, e, set_);
        if served + |pending| + |SetsOff(s, set_)| <= SERVICE_LIMIT {
          ServiceFlat(port, Completed(s, e, set_), t.bus, pending[1..] + SetsOff(s, set_), served + 1, commit);
        }
      }
    }
  }

  lemma SignalFlat<D>(port: Port<D>, s: Engine, b: Bus<D>, channel: nat)
    requires BusOk(b) && Valid(s)
    ensures SameRun(Signal(port, s, b, channel), Signal(port, s, FlatBus(b), channel))
  {
    hide FlatBus, Service, BusOk;
    if channel < CHANNELS && channel in s.eer {
      var l := Latch(s.er, s.emr, channel);
      var s1 := s.(er := l.0, emr := l.1);
      assert Valid(s1);
      ServiceFlat(port, s1, b, [Event(Dma, channel)], 0, false);
      ServiceFlat(port, s1, b, [Event(Dma, channel)], 0, true);
    }
  }

  lemma AttemptFlat<D>(port: Port<D>, s: Engine, trial: Engine, actual: Engine, b: Bus<D>, events: seq<Event>, commit: bool)
    requires BusOk(b) && Valid(s) && Valid(trial) && Valid(actual)
    requires |events| <= CHANNELS && forall e | e in events :: Known(e)
    ensures SameRun(Attempt(port, s, trial, actual, b, events, commit),
                    Attempt(port, s, trial, actual, FlatBus(b), events, commit))
  {
    hide FlatBus, Service, BusOk, Valid;
    ServiceFlat(port, trial, b, events, 0, false);
    ServiceFlat(port, actual, b, events, 0, true);
  }

  lemma WriteRegFlat<D>(port: Port<D>, s: Engine, b: Bus<D>, a: Access, commit: bool)
    requires BusOk(b) && Valid(s) && Decoded(a)
    ensures SameRun(WriteReg(port, s, b, a, commit), WriteReg(port, s, FlatBus(b), a, commit))
  {
    match a
    case QchmapWord(_, _) =>
      hide FlatBus, BusOk, Valid, Decoded;
    case ParamWords(_, _, _) =>
      hide *;
      WriteParamFlat(port, s, b, a, commit);
    case ChannelReg(_, _, _) =>
      hide *;
      WriteChannelFlat(port, s, b, a, commit);
  }

  lemma WriteParamFlat<D>(port: Port<D>, s: Engine, b: Bus<D>, a: Access, commit: bool)
    requires BusOk(b) && Valid(s) && Decoded(a) && a.ParamWords?
    ensures SameRun(WriteReg(port, s, b, a, commit), WriteReg(port, s, FlatBus(b), a, commit))
  {
    hide FlatBus, BusOk, Attempt;
    if LegalWords(a.word, a.words) {
      var trial := s.(param := s.param[a.set_ := SetWords(s.param[a.set_], a.word, a.words)]);
      var matches := Triggered(s, a.set_, a.word, |a.words|, 0);
      WriteParamValid(s, a);
      hide Valid, LegalWords, SetWords, Triggered;
      AttemptFlat(port, s, trial, trial.(qer := trial.qer + ToSet(matches)), b, Qdmas(matches), commit);
    }
  }

  lemma WriteChannelFlat<D>(port: Port<D>, s: Engine, b: Bus<D>, a: Access, commit: bool)
    requires BusOk(b) && Valid(s) && Decoded(a) && a.ChannelReg?
    ensures SameRun(WriteReg(port, s, b, a, commit), WriteReg(port, s, FlatBus(b), a, commit))
  {
    var d := Masked(s, a.region, false, a.value);
    ChannelRegValid(s, a);
    ChannelsKnown(d, 0);
    ChannelsKnown(d * s.er, 0);
    hide FlatBus, BusOk, Valid, PlainWrite, Masked, Attempt, Accepts, IsQdmaReg, Channels;
    if a.reg == ESR {
      AttemptFlat(port, s, s.(esr := s.esr + d), s.(esr := s.esr + d), b, Channels(d, 0), commit);
    } else if a.reg == EESR {
      AttemptFlat(port, s, s.(eer := s.eer + d), s.(eer := s.eer + d), b, Channels(d * s.er, 0), commit);
    }
  }

  // ------------------------------------------------- serving McASP events

  /** Signal the instance's channel while it asks for service, at most 16 times, stopping when nothing is taken. */
  function Serve<D>(port: Port<D>, s: Engine, b: Bus<D>, instance: nat, serializer: nat): (r: Run<D>)
    requires BusOk(b) && Valid(s) && serializer <= 16
    ensures BusOk(r.bus) && r.bus.config == b.config && (r.ok ==> Valid(r.engine))
    decreases 16 - serializer
  {
    if serializer == 16 || !port.ready(b.device, instance) then Run(true, s, b)
    else
      var r := Signal(port, s, b, if instance == 1 then 3 else 5);
      if !r.ok then r
      else if port.count(r.bus.device, instance) == port.count(b.device, instance) then r
      else Serve(port, r.engine, r.bus, instance, serializer + 1)
  }

  function ServeBoth<D>(port: Port<D>, s: Engine, b: Bus<D>): (r: Run<D>)
    requires BusOk(b) && Valid(s)
    ensures BusOk(r.bus) && r.bus.config == b.config && (r.ok ==> Valid(r.engine))
  {
    var r := Serve(port, s, b, 1, 0);
    if !r.ok then r else Serve(port, r.engine, r.bus, 2, 0)
  }

  lemma {:induction false} ServeFlat<D>(port: Port<D>, s: Engine, b: Bus<D>, instance: nat, serializer: nat)
    requires BusOk(b) && Valid(s) && serializer <= 16
    ensures SameRun(Serve(port, s, b, instance, serializer), Serve(port, s, FlatBus(b), instance, serializer))
    decreases 16 - serializer
  {
    hide Signal, Valid, BusOk;
    if serializer < 16 && port.ready(b.device, instance) {
      var channel := if instance == 1 then 3 else 5;
      SignalFlat(port, s, b, channel);
      var r := Signal(port, s, b, channel);
      if r.ok {
        ServeFlat(port, r.engine, r.bus, instance, serializer + 1);
      }
    }
  }

  // ---------------------------------------------------------- the transaction

  /** A guest access: an EDMA register write, or a word to the McASP. */
  datatype Request = ToEdma(a: Access) | ToPort(address: nat, word: nat)

  ghost predicate Proper(q: Request) {
    q.ToEdma? ==> Decoded(q.a)
  }

  /** The access and everything it causes, on the bus it is given. */
  function Perform<D>(port: Port<D>, s: Engine, b: Bus<D>, q: Request): (r: Run<D>)
    requires BusOk(b) && Valid(s) && Proper(q)
    ensures BusOk(r.bus) && r.bus.config == b.config && (r.ok ==> Valid(r.engine))
  {
    match q
    case ToEdma(a) =>
      var r := WriteReg(port, s, b, a, true);
      if !r.ok then r else ServeBoth(port, r.engine, r.bus)
    case ToPort(address, word) =>
      match port.write(b.device, address, word)
      case None => Run(false, s, b)
      case Some(d) => ServeBoth(port, s, b.(device := d))
  }

  /** Run the access on trial copies behind a write buffer; commit all of it or none. */
  function Transaction<D>(port: Port<D>, s: Engine, c: Config, m: seq<Byte>, d: D, q: Request, commit: bool): (r: Run<D>)
    requires |m| == TOTAL && Valid(s) && Proper(q)
  {
    var trial := Perform(port, s, Bus(c, Staged(m, []), d), q);
    if trial.ok && commit then Run(true, trial.engine, trial.bus.(store := Direct(Commit(trial.bus.store))))
    else Run(trial.ok, s, Bus(c, Direct(m), d))
  }

  /** Memory after the staged writes are copied out in order. */
  function Commit(st: Store): (r: seq<Byte>)
    requires StoreOk(st)
  {
    if st.Direct? then st.bytes else Apply(st.base, st.writes)
  }

  /**
   Staging then committing is direct execution, and a transaction that fails or is only
   checked changes nothing: registers, memory and peripherals.
   */
  lemma TransactionIsDirect<D>(port: Port<D>, s: Engine, c: Config, m: seq<Byte>, d: D, q: Request, commit: bool)
    requires |m| == TOTAL && Valid(s) && Proper(q)
    ensures var direct := Perform(port, s, Bus(c, Direct(m), d), q);
            Transaction(port, s, c, m, d, q, commit) ==
            if direct.ok && commit then direct else Run(direct.ok, s, Bus(c, Direct(m), d))
  {
    var b := Bus(c, Staged(m, []), d);
    assert FlatBus(b) == Bus(c, Direct(m), d);
    PerformFlat(port, s, b, q);
  }

  lemma PerformFlat<D>(port: Port<D>, s: Engine, b: Bus<D>, q: Request)
    requires BusOk(b) && Valid(s) && Proper(q)
    ensures SameRun(Perform(port, s, b, q), Perform(port, s, FlatBus(b), q))
  {
    match q
    case ToEdma(a) =>
      WriteRegFlat(port, s, b, a, true);
      var r := WriteReg(port, s, b, a, true);
      if r.ok {
        ServeBothFlat(port, r.engine, r.bus);
      }
      hide WriteReg, ServeBoth, Valid;
    case ToPort(address, word) =>
      var w := port.write(b.device, address, word);
      if w.Some? {
        ServeBothFlat(port, s, b.(device := w.value));
      }
      hide ServeBoth, Valid;
  }

  lemma ServeBothFlat<D>(port: Port<D>, s: Engine, b: Bus<D>)
    requires BusOk(b) && Valid(s)
    ensures SameRun(ServeBoth(port, s, b), ServeBoth(port, s, FlatBus(b)))
  {
    ServeFlat(port, s, b, 1, 0);
    var r := Serve(port, s, b, 1, 0);
    if r.ok {
      ServeFlat(port, r.engine, r.bus, 2, 0);
    }
  }

  // ------------------------------------------------------- the buffer in place

  /** The memory and the growing list of staged writes, as the bus callbacks handle them. */
  class Buffer {
    const memory: array<Byte>
    var writes: seq<Write>

    ghost predicate Ok()
      reads this, memory
    {
      Fits(memory[..], writes)
    }

    constructor (memory: array<Byte>)
      ensures this.memory == memory && writes == [] && Ok()
    {
      this.memory := memory;
      writes := [];
    }

    /** Stage a write: the memory the buffer stands for is then the one with that write carried out. */
    method Stage(o: nat, data: seq<Byte>)
      requires Ok() && o + |data| <= memory.Length
      modifies this`writes
      ensures Ok() && writes == old(writes) + [Write(o, data)]
      ensures Apply(memory[..], writes) == Poke(Apply(memory[..], old(writes)), Write(o, data))
    {
      writes := writes + [Write(o, data)];
      assert writes[..|writes| - 1] == old(writes);
    }

    /** Copy the memory out, then lay every staged write that overlaps over it, oldest first. */
    method ReadBytes(o: nat, n: nat) returns (bytes: array<Byte>)
      requires Ok() && o + n <= memory.Length
      ensures fresh(bytes) && bytes[..] == Apply(memory[..], writes)[o..o + n]
    {
      bytes := CopyOut(o, n);
      hide Fits, Apply, Overlay;
      var i := 0;
      assert writes[..0] == [];
      ghost var base := memory[..][o..o + n];
      while i < |writes|
        invariant 0 <= i <= |writes| && fresh(bytes) && bytes.Length == n
        invariant bytes[..] == OverlayAll(base, o, writes[..i])
      {
        assert writes[..i + 1][..i] == writes[..i];
        ghost var before := bytes[..];
        OverlayOne(bytes, o, writes[i]);
        assert OverlayAll(base, o, writes[..i + 1]) == Overlay(before, o, writes[i]);
        i := i + 1;
      }
      assert writes[..|writes|] == writes;
      OverlayAllReads(memory[..], o, n, writes);
    }

    method CopyOut(o: nat, n: nat) returns (bytes: array<Byte>)
      requires o + n <= memory.Length
      ensures fresh(bytes) && bytes[..] == memory[..][o..o + n]
    {
      bytes := new Byte[n];
      for k := 0 to n
        invariant forall x | 0 <= x < k :: bytes[x] == memory[o + x]
      {
        bytes[k] := memory[o + k];
      }
    }

    /** Commit every staged write, oldest first. */
    method CommitAll()
      requires Ok()
      modifies memory
      ensures memory[..] == Apply(old(memory[..]), writes) && writes == old(writes)
    {
      var i := 0;
      assert writes[..0] == [];
      ghost var m := memory[..];
      while i < |writes|
        invariant 0 <= i <= |writes| && writes == old(writes)
        invariant Fits(m, writes[..i]) && memory[..] == Apply(m, writes[..i])
      {
        assert writes[..i + 1][..i] == writes[..i] && writes[i] in writes;
        PokeInPlace(memory, writes[i]);
        i := i + 1;
      }
      assert writes[..|writes|] == writes;
    }
  }

  /** Copy the overlap of a staged write over the bytes read. */
  method OverlayOne(bytes: array<Byte>, o: nat, w: Write)
    modifies bytes
    ensures bytes[..] == Overlay(old(bytes[..]), o, w)
  {
    var n := bytes.Length;
    ghost var was := bytes[..];
    if w.at < o + n && o < w.at + |w.data| {
      var start := if w.at > o then w.at - o else 0;
      var end := if w.at + |w.data| < o + n then w.at + |w.data| - o else n;
      for k := start to end
        invariant forall x | 0 <= x < n :: bytes[x] == if start <= x < k then w.data[o + x - w.at] else was[x]
      {
        bytes[k] := w.data[o + k - w.at];
      }
    }
    ghost var r := Overlay(was, o, w);
    hide Overlay;
    assert forall x | 0 <= x < n :: bytes[x] == r[x] by {
      OverlayBytes(was, o, w);
    }
  }

  lemma OverlayBytes(was: seq<Byte>, o: nat, w: Write)
    ensures forall x | 0 <= x < |was| ::
              Overlay(was, o, w)[x] == if w.at <= o + x < w.at + |w.data| then w.data[o + x - w.at] else was[x]
  {
  }

  method PokeInPlace(m: array<Byte>, w: Write)
    requires w.at + |w.data| <= m.Length
    modifies m
    ensures m[..] == Poke(old(m[..]), w)
  {
    ghost var was := m[..];
    for k := 0 to |w.data|
      invariant forall x | 0 <= x < m.Length :: m[x] == if w.at <= x < w.at + k then w.data[x - w.at] else was[x]
    {
      m[w.at + k] := w.data[k];
    }
  }
}
