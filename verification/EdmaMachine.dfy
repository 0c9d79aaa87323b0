/**
 The engine as the file runs it: registers and PaRAM rewritten in place while the work queue
 grows.  Every method is tied to the value-level step of `Edma`.
 */
module EdmaMachine {
  import opened Common
  import opened Memory
  import opened Edma

  /** The first `n` regions as far as a completion code newly makes them pending. */
  ghost function NewlyBelow(s: Engine, tcc: nat, n: nat): set<nat>
    requires |s.drae| == REGIONS
  {
    set r | r in Newly(s, tcc) && r < n
  }

  lemma NextRegion(s: Engine, tcc: nat, r: nat)
    requires |s.drae| == REGIONS && r < REGIONS
    ensures NewlyBelow(s, tcc, 0) == {}
    ensures NewlyBelow(s, tcc, r + 1) ==
            NewlyBelow(s, tcc, r) + if !Pending(s, r) && Pending(s.(ipr := s.ipr + {tcc}), r) then {r} else {}
  {
    hide Pending;
  }

  lemma NewlyAll(s: Engine, tcc: nat)
    requires |s.drae| == REGIONS
    ensures NewlyBelow(s, tcc, REGIONS) == Newly(s, tcc)
    ensures Raised(s, tcc) == s.(ipr := s.ipr + {tcc}, notified := s.notified + Newly(s, tcc))
  {
    hide Pending;
  }

  lemma PendingIs(s: Engine, r: nat)
    requires r < |s.drae|
    ensures Pending(s, r) == (s.ipr * s.ier * s.drae[r] != {})
  {
  }

  /** A set whose request can be completed. */
  ghost predicate Placed(s: Engine, set_: nat) {
    |s.param| == PARAMS && |s.qchmap| == QCHANNELS && |s.drae| == REGIONS && set_ < PARAMS && ValidParam(s.param[set_])
  }

  /** What a PaRAM update leaves: it fails only when the queue cannot take the channels a link triggers. */
  ghost predicate Updates(s: Engine, before: seq<Event>, set_: nat, ok: bool, t: Engine, after: seq<Event>)
    requires Placed(s, set_) && |before| <= SERVICE_LIMIT
  {
    var cs := if Relinks(s.param[set_]) then Linked(s, set_, 0) else [];
    var room := SERVICE_LIMIT - |before|;
    && ok == (|cs| <= room)
    && if ok then t == Reloaded(s, set_) && after == before + Qdmas(cs) else t == Overrun(s, set_, room)
  }

  /** What interrupt, chaining and the counters leave: they fail only when the queue cannot take the chained channel. */
  ghost predicate Notes(s: Engine, before: seq<Event>, p: Param, ok: bool, t: Engine, after: seq<Event>)
    requires |s.drae| == REGIONS
  {
    && ok == (p.Chains() ==> |before| < SERVICE_LIMIT)
    && if ok then t == Noted(s, p) && after == before + (if p.Chains() then [Event(Dma, p.Tcc())] else [])
       else t == Announced(s, p)
  }

  /** What a request whose bytes are moved leaves: it fails only when the queue cannot take what it sets off. */
  ghost predicate Completes(s: Engine, before: seq<Event>, e: Event, set_: nat, ok: bool, t: Engine, after: seq<Event>)
    requires Placed(s, set_) && |before| <= SERVICE_LIMIT
  {
    && ok == (|before| + |SetsOff(s, set_)| <= SERVICE_LIMIT)
    && if ok then t == Completed(s, e, set_) && after == before + SetsOff(s, set_)
       else t == Stopped(s, e, set_, SERVICE_LIMIT - |before|)
  }

  class Machine<D> {
    const port: Port<D>
    const param: array<Param>
    var qchmap: seq<nat>
    var drae: seq<set<nat>>
    var qrae: seq<set<nat>>
    var er: set<nat>
    var esr: set<nat>
    var cer: set<nat>
    var eer: set<nat>
    var ser: set<nat>
    var qer: set<nat>
    var qeer: set<nat>
    var qser: set<nat>
    var ier: set<nat>
    var ipr: set<nat>
    var notified: set<nat>
    var emr: set<nat>
    var qemr: set<nat>
    var requests: nat
    var moved: nat
    var bus: Bus<D>
    /** The pending queue from its first item to its tail. */
    var queue: seq<Event>

    function State(): Engine
      reads this, param
    {
      Engine(param[..], qchmap, drae, qrae, er, esr, cer, eer, ser, qer, qeer, qser, ier, ipr, notified, emr, qemr,
             requests, moved)
    }

    /** A copy for a preview, on the same bus. */
    constructor CopyOf(from: Machine<D>)
      ensures State() == from.State() && bus == from.bus && port == from.port
      ensures fresh(param) && queue == []
    {
      port, bus, queue := from.port, from.bus, [];
      qchmap, drae, qrae := from.qchmap, from.drae, from.qrae;
      er, esr, cer, eer, ser := from.er, from.esr, from.cer, from.eer, from.ser;
      qer, qeer, qser := from.qer, from.qeer, from.qser;
      ier, ipr, notified, emr, qemr := from.ier, from.ipr, from.notified, from.emr, from.qemr;
      requests, moved := from.requests, from.moved;
      var words := new Param[from.param.Length](i requires 0 <= i < from.param.Length reads from.param => from.param[i]);
      param := words;
      new;
      assert param[..] == from.param[..];
    }

    /** Array after array through the byte buffer, until one is refused. */
    method TransferBytes(p: Param, commit: bool) returns (ok: bool)
      requires BusOk(bus)
      modifies this`bus
      ensures BusOk(bus) && Moved(ok, bus) == Transfer(port, old(bus), p, commit)
    {
      ok := ValidParam(p);
      if !ok {
        return;
      }
      var n, arrays := p.ACnt(), if p.AbSync() then p.BCnt() else 1;
      var src, dst, srcB, dstB := p.src, p.dst, p.SrcB(), p.DstB();
      var i := 0;
      while i < arrays && ok
        invariant i <= arrays && BusOk(bus)
        invariant Transfer(port, old(bus), p, commit)
               == if ok then Copy(port, bus, Moves(src, dst, srcB, dstB, arrays - i), n, commit) else Moved(false, bus)
      {
        ok := MoveOne(src, dst, n, commit, Moves(Bump(src, srcB), Bump(dst, dstB), srcB, dstB, arrays - i - 1));
        src, dst, i := Bump(src, srcB), Bump(dst, dstB), i + 1;
      }
    }

    /** One array: read it, check the write, and with `commit` carry it out. */
    method MoveOne(src: nat, dst: nat, n: nat, commit: bool, ghost rest: seq<(nat, nat)>) returns (ok: bool)
      requires BusOk(bus)
      modifies this`bus
      ensures BusOk(bus)
      ensures Copy(port, old(bus), [(src, dst)] + rest, n, commit)
           == if ok then Copy(port, bus, rest, n, commit) else Moved(false, bus)
    {
      assert ([(src, dst)] + rest)[1..] == rest;
      var data := Read(bus, src, n);
      ok := data.Some? && WriteBytes(port, bus, dst, data.value, false).Some?;
      if ok && commit {
        var written := WriteBytes(port, bus, dst, data.value, true);
        ok := written.Some?;
        if ok {
          bus := written.value;
        }
      }
    }

    method Enqueue(e: Event) returns (ok: bool)
      modifies this`queue
      ensures ok == (|old(queue)| < SERVICE_LIMIT)
      ensures queue == if ok then old(queue) + [e] else old(queue)
    {
      ok := |queue| < SERVICE_LIMIT;
      if ok {
        queue := queue + [e];
      }
    }

    method ClearLatches(e: Event)
      modifies this`er, this`esr, this`cer, this`ser, this`qer, this`qser
      ensures State() == Cleared(old(State()), e)
    {
      var bit := {e.channel};
      if e.kind == Dma {
        er, esr, cer, ser := er - bit, esr - bit, cer - bit, ser - bit;
      } else {
        qer, qser := qer - bit, qser - bit;
      }
    }

    /** Rewrite the words of a set that a request which was not its last changes. */
    method StepSet(set_: nat)
      requires set_ < param.Length && ValidParam(param[set_])
      modifies param
      ensures param[..] == old(param[..])[set_ := Advance(old(param[set_]))]
    {
      var p := param[set_];
      var srcIndex, dstIndex := p.SrcC(), p.DstC();
      if p.AbSync() {
        param[set_] := p.(ccnt := p.CCnt() - 1);
      } else if p.BCnt() > 1 {
        srcIndex, dstIndex := p.SrcB(), p.DstB();
        param[set_] := p.(cnt := p.ACnt() + (p.BCnt() - 1) * 0x10000);
      } else {
        param[set_] := p.(cnt := p.ACnt() + p.Reload() * 0x10000, ccnt := p.CCnt() - 1);
      }
      param[set_] := param[set_].(src := Bump(p.src, srcIndex), dst := Bump(p.dst, dstIndex));
    }

    /** The QDMA channels a link into the set triggers, in channel order. */
    method Matches(set_: nat) returns (cs: seq<nat>)
      requires |qchmap| == QCHANNELS
      ensures cs == Linked(State(), set_, 0)
    {
      ghost var s := State();
      cs := [];
      var q := 0;
      while q < QCHANNELS
        invariant q <= QCHANNELS && cs + Linked(s, set_, q) == Linked(s, set_, 0)
      {
        ghost var before := cs;
        if q in qeer && qchmap[q] / 32 % 512 == set_ {
          cs := cs + [q];
        }
        NextLink(s, set_, q, before);
        q := q + 1;
      }
    }

    /** A QDMA channel is latched, or recorded as missed when it is latched already. */
    method LatchQdma(q: nat)
      modifies this`qer, this`qemr
      ensures (qer, qemr) == Latch(old(qer), old(qemr), q)
    {
      if q in qer {
        qemr := qemr + {q};
      } else {
        qer := qer + {q};
      }
    }

    /** Latch and queue the QDMA channels one by one, up to the one that finds the queue full. */
    method Trigger(cs: seq<nat>) returns (ok: bool)
      requires |queue| <= SERVICE_LIMIT
      modifies this`qer, this`qemr, this`queue
      ensures ok == (|old(queue)| + |cs| <= SERVICE_LIMIT)
      ensures State() == LatchedAll(old(State()), if ok then cs else cs[..SERVICE_LIMIT - |old(queue)| + 1])
      ensures ok ==> queue == old(queue) + Qdmas(cs)
    {
      ghost var s := State();
      hide LatchAll, Latch;
      LatchNone(qer, qemr);
      ok := true;
      var i := 0;
      while i < |cs| && ok
        invariant i <= |cs| && |queue| <= SERVICE_LIMIT
        invariant (qer, qemr) == LatchAll(s.qer, s.qemr, cs[..i])
        invariant ok ==> queue == old(queue) + Qdmas(cs)[..i]
        invariant !ok ==> |old(queue)| + i == SERVICE_LIMIT + 1
      {
        var q := cs[i];
        LatchOneMore(s.qer, s.qemr, cs[..i], q);
        assert cs[..i] + [q] == cs[..i + 1] && Qdmas(cs)[i] == Event(Qdma, q);
        LatchQdma(q);
        ok := Enqueue(Event(Qdma, q));
        i := i + 1;
      }
      assert ok ==> cs[..i] == cs;
      assert State() == s.(qer := qer, qemr := qemr);
    }

    /** The linked set copied over the set. */
    method CopyLinked(set_: nat)
      requires param.Length == PARAMS && set_ < PARAMS && ValidParam(param[set_]) && Relinks(param[set_])
      modifies param
      ensures State() == old(State()).(param := old(param[..])[set_ := Updated(old(param[..]), set_)])
    {
      ghost var s := State();
      var p := param[set_];
      param[set_] := param[p.Link() % 0x4000 / 32];
      assert param[..] == s.param[set_ := Updated(s.param, set_)];
    }

    /** The final reload of a linked set, which may trigger QDMA channels mapped to it. */
    method LinkSet(set_: nat) returns (ok: bool)
      requires Placed(State(), set_) && Relinks(param[set_]) && |queue| <= SERVICE_LIMIT
      modifies param, this`qer, this`qemr, this`queue
      ensures Updates(old(State()), old(queue), set_, ok, State(), queue)
    {
      hide ValidParam, Linked, LatchAll, Updates, Updated, Relinks, LatchedAll, Qdmas;
      ghost var s, before := State(), queue;
      CopyLinked(set_);
      ghost var s1 := State();
      var cs := Matches(set_);
      SameLinked(s1, s, set_, 0);
      ok := Trigger(cs);
      LinkTogether(s, before, set_, cs, ok, State(), queue);
    }

    /** The PaRAM update of a request: nothing under STATIC, a step, a null set, or the linked set. */
    method UpdateSet(set_: nat) returns (ok: bool)
      requires Placed(State(), set_) && |queue| <= SERVICE_LIMIT
      modifies param, this`qer, this`qemr, this`queue
      ensures Updates(old(State()), old(queue), set_, ok, State(), queue)
    {
      var p := param[set_];
      ghost var s := State();
      hide Linked, LatchAll, ValidParam, Advance;
      ok := true;
      if !p.Static() && p.Final() && p.Link() != 0xffff {
        ok := LinkSet(set_);
      } else {
        if !p.Static() {
          if p.Final() {
            param[set_] := NULL_SET;
          } else {
            StepSet(set_);
          }
        }
        assert param[..] == s.param[set_ := Updated(s.param, set_)];
      }
    }

    /** Raise a completion code, and notify the regions it newly makes pending. */
    method Raise(tcc: nat)
      requires |drae| == REGIONS
      modifies this`ipr, this`notified
      ensures State() == Raised(old(State()), tcc)
    {
      ghost var s := State();
      var pending := seq(REGIONS, r requires 0 <= r < |drae| reads this => ipr * ier * drae[r] != {});
      assert forall r | 0 <= r < REGIONS :: pending[r] == Pending(s, r);
      ipr := ipr + {tcc};
      hide *;
      Notify(pending, s, tcc);
      NewlyAll(s, tcc);
    }

    /** A pulse to every region that was not pending and is now. */
    method Notify(pending: seq<bool>, ghost s: Engine, ghost tcc: nat)
      requires |drae| == |s.drae| == |pending| == REGIONS && forall r | 0 <= r < REGIONS :: pending[r] == Pending(s, r)
      requires ipr == s.ipr + {tcc} && ier == s.ier && drae == s.drae && notified == s.notified
      modifies this`notified
      ensures notified == s.notified + NewlyBelow(s, tcc, REGIONS)
    {
      ghost var t := s.(ipr := ipr);
      hide Pending;
      var r := 0;
      while r < REGIONS
        invariant r <= REGIONS && notified == s.notified + NewlyBelow(s, tcc, r)
      {
        NextRegion(s, tcc, r);
        assert (ipr * ier * drae[r] != {}) == Pending(t, r) by { PendingIs(t, r); }
        if !pending[r] && ipr * ier * drae[r] != {} {
          notified := notified + {r};
        }
        r := r + 1;
      }
    }

    method Chain(tcc: nat) returns (ok: bool)
      modifies this`cer, this`emr, this`queue
      ensures ok == (|old(queue)| < SERVICE_LIMIT)
      ensures State() == Chained(old(State()), tcc)
      ensures ok ==> queue == old(queue) + [Event(Dma, tcc)]
    {
      if tcc in cer {
        emr := emr + {tcc};
      } else {
        cer := cer + {tcc};
      }
      ok := Enqueue(Event(Dma, tcc));
    }

    /** Completion interrupt, chaining and the counters. */
    method Note(p: Param) returns (ok: bool)
      requires |drae| == REGIONS
      modifies this`ipr, this`notified, this`cer, this`emr, this`queue, this`requests, this`moved
      ensures Notes(old(State()), old(queue), p, ok, State(), queue)
    {
      hide p.Chains, p.Interrupts, p.Tcc, p.AbSync, p.ACnt, p.BCnt;
      ok := true;
      if p.Interrupts() {
        Raise(p.Tcc());
      }
      if p.Chains() {
        ok := Chain(p.Tcc());
      }
      hide Raised, Chained;
      if ok {
        requests, moved := requests + 1, moved + p.ACnt() * if p.AbSync() then p.BCnt() else 1;
      }
    }

    /** What follows the bytes of a request: event registers, the set and the queue. */
    method Settle(e: Event, set_: nat) returns (ok: bool)
      requires Placed(State(), set_) && |queue| <= SERVICE_LIMIT
      modifies param, this`er, this`esr, this`cer, this`ser, this`qer, this`qser, this`emr, this`qemr
      modifies this`ipr, this`notified, this`queue, this`requests, this`moved
      ensures Completes(old(State()), old(queue), e, set_, ok, State(), queue)
    {
      ghost var s, before := State(), queue;
      var p := param[set_];
      PlacedMeans(s, set_);
      assert p == s.param[set_] && |drae| == REGIONS;
      hide *;
      ClearLatches(e);
      ClearedPlaced(s, e, set_);
      var room := UpdateSet(set_);
      ok := room;
      ghost var s2, q2 := State(), queue;
      UpdatesKeep(Cleared(s, e), before, set_, room, s2, q2);
      if room {
        ok := Note(p);
      }
      Together(s, before, e, set_, room, s2, q2, ok, State(), queue);
    }

    /** One request: move the bytes, then settle. */
    method CompleteOne(e: Event, commit: bool) returns (ok: bool)
      requires Valid(State()) && BusOk(bus) && Known(e) && |queue| <= SERVICE_LIMIT
      modifies this, param
      ensures BusOk(bus)
      ensures var s := old(State());
              var set_ := SetOf(s, e);
              var t := Transfer(port, old(bus), s.param[set_], commit);
              bus == t.bus && (if t.ok then Completes(s, old(queue), e, set_, ok, State(), queue) else !ok && State() == s)
    {
      ghost var s := State();
      SetInRange(s, e);
      var set_ := if e.kind == Dma then e.channel else qchmap[e.channel] / 32 % 512;
      assert set_ == SetOf(s, e) && param[set_] == s.param[set_];
      ok := TransferBytes(param[set_], commit);
      assert ok ==> ValidParam(s.param[set_]);
      hide Valid, Transfer, ValidParam, Known, SetsOff, Completed, SetOf;
      if ok {
        ok := Settle(e, set_);
      }
    }

    /** Queue the events a run starts from. */
    method QueueAll(events: seq<Event>)
      requires |events| <= SERVICE_LIMIT
      modifies this`queue
      ensures queue == events
    {
      queue := [];
      for i := 0 to |events|
        invariant queue == events[..i]
      {
        var room := Enqueue(events[i]);
        assert room;
      }
      assert events[..|events|] == events;
    }

    /** Take events from the head of the queue while requests add more at its tail. */
    method ServeAll(events: seq<Event>, commit: bool) returns (ok: bool)
      requires Valid(State()) && BusOk(bus) && |events| <= SERVICE_LIMIT && forall e | e in events :: Known(e)
      modifies this, param
      ensures BusOk(bus)
      ensures Runs(Service(port, old(State()), old(bus), events, 0, commit), ok, State(), bus)
    {
      ghost var run := Service(port, State(), bus, events, 0, commit);
      QueueAll(events);
      assert queue[0..] == events;
      var head := 0;
      ok := true;
      hide *;
      ServingMeans(port, run, true, State(), bus, queue, 0, commit);
      while ok && head < |queue|
        invariant Serving(port, run, ok, State(), bus, queue, head, commit)
        decreases if ok then SERVICE_LIMIT - head + 1 else 0
      {
        ghost var s1, b1, q1 := State(), bus, queue;
        var event := queue[head];
        ServingNow(port, run, s1, b1, q1, head, commit);
        ok := CompleteOne(event, commit);
        ServesNext(port, run, s1, b1, q1, head, ok, State(), bus, queue, commit);
        head := head + 1;
      }
      ServesEnd(port, run, State(), bus, queue, head, ok, commit);
    }

    /** Latch an event, or note that it is missed. */
    method LatchEvent(channel: nat)
      modifies this`er, this`emr
      ensures State() == Latched(old(State()), channel)
    {
      if channel in er {
        emr := emr + {channel};
      }
      er := er + {channel};
    }

    /** A peripheral event: rehearse it on a copy, then serve it. */
    method TakeEvent(channel: nat) returns (ok: bool)
      requires Valid(State()) && BusOk(bus)
      modifies this, param
      ensures BusOk(bus) && Runs(Signal(port, old(State()), old(bus), channel), ok, State(), bus)
    {
      ok := channel < CHANNELS;
      if !ok {
        return;
      }
      if channel !in eer {
        er := er + {channel};
        return;
      }
      ghost var s, b := State(), bus;
      SignalParts(port, s, b, channel);
      hide Valid, Service, Signal, Latched;
      assert Event(Dma, channel) in [Event(Dma, channel)];
      var preview := new Machine<D>.CopyOf(this);
      preview.LatchEvent(channel);
      ok := preview.ServeAll([Event(Dma, channel)], false);
      assert State() == s && bus == b;
      if ok {
        LatchEvent(channel);
        ok := ServeAll([Event(Dma, channel)], true);
      }
    }

    /** Write words into a set. */
    method PutWords(set_: nat, word: nat, words: seq<nat>)
      requires set_ < param.Length && word + |words| <= 8
      modifies param
      ensures param[..] == old(param[..])[set_ := SetWords(old(param[set_]), word, words)]
    {
      ghost var p := param[set_];
      for i := 0 to |words|
        invariant SetWords(param[set_], word + i, words[i..]) == SetWords(p, word, words)
        invariant param[..] == old(param[..])[set_ := param[set_]]
      {
        assert words[i..][0] == words[i] && words[i..][1..] == words[i + 1..];
        param[set_] := SetWord(param[set_], word + i, words[i]);
      }
    }

    /** The QDMA channels that writing these words triggers. */
    method TriggeredBy(set_: nat, word: nat, n: nat) returns (cs: seq<nat>)
      requires |qchmap| == QCHANNELS
      ensures cs == Triggered(State(), set_, word, n, 0)
    {
      ghost var s := State();
      hide Triggered;
      TriggersEnd(s, set_, word, n);
      cs := [];
      var q := 0;
      while q < QCHANNELS
        invariant q <= QCHANNELS && cs + Triggered(s, set_, word, n, q) == Triggered(s, set_, word, n, 0)
      {
        ghost var before := cs;
        var m := qchmap[q];
        if q in qeer && m / 32 % 512 == set_ && word <= m / 4 % 8 < word + n {
          cs := cs + [q];
        }
        NextTrigger(s, set_, word, n, q, before);
        q := q + 1;
      }
    }

    /** Rehearse a PaRAM write on a copy with the words in place. */
    method RehearseWords(a: Access, ghost trial: Engine) returns (ok: bool, matches: seq<nat>)
      requires Valid(State()) && BusOk(bus) && Decoded(a) && a.ParamWords? && LegalWords(a.word, a.words) && Valid(trial)
      requires trial == State().(param := State().param[a.set_ := SetWords(State().param[a.set_], a.word, a.words)])
      ensures matches == Triggered(State(), a.set_, a.word, |a.words|, 0)
      ensures |Qdmas(matches)| <= CHANNELS && (forall e | e in Qdmas(matches) :: Known(e))
      ensures ok == Service(port, trial, bus, Qdmas(matches), 0, false).ok
    {
      ghost var s := State();
      WriteParamValid(s, a);
      SameTriggers(s, trial, a.set_, a.word, |a.words|, 0);
      assert a.set_ < param.Length && a.word + |a.words| <= 8 && |qchmap| == QCHANNELS && QCHANNELS <= SERVICE_LIMIT;
      hide *;
      var preview := CopyWith(a, trial);
      assert State() == s;
      matches := preview.TriggeredBy(a.set_, a.word, |a.words|);
      ok := preview.ServeAll(Qdmas(matches), false);
      assert State() == s;
    }

    /** A copy with the words in place. */
    method CopyWith(a: Access, ghost trial: Engine) returns (preview: Machine<D>)
      requires a.ParamWords? && a.set_ < param.Length && a.word + |a.words| <= 8 && |qchmap| == QCHANNELS
      requires trial == State().(param := State().param[a.set_ := SetWords(State().param[a.set_], a.word, a.words)])
      ensures fresh(preview) && fresh(preview.param) && preview.State() == trial && preview.bus == bus && preview.port == port
      ensures |preview.qchmap| == QCHANNELS
    {
      hide SetWords;
      preview := new Machine<D>.CopyOf(this);
      preview.PutWords(a.set_, a.word, a.words);
      assert preview.State() == trial;
    }

    /** A PaRAM write: rehearsed on a copy with the words in place, then done. */
    method WriteWords(a: Access, commit: bool) returns (ok: bool)
      requires Valid(State()) && BusOk(bus) && Decoded(a) && a.ParamWords?
      modifies this, param
      ensures BusOk(bus) && Runs(WriteParam(port, old(State()), old(bus), a, commit), ok, State(), bus)
      ensures !commit ==> State() == old(State()) && bus == old(bus)
    {
      ok := LegalWords(a.word, a.words);
      if !ok {
        return;
      }
      ghost var s, b := State(), bus;
      WriteParamValid(s, a);
      ghost var trial := s.(param := s.param[a.set_ := SetWords(s.param[a.set_], a.word, a.words)]);
      hide Valid, Service, LegalWords, Triggered, SetWords, Decoded, Qdmas;
      var matches;
      ok, matches := RehearseWords(a, trial);
      if ok && commit {
        CarryWords(a, matches, trial);
        ok := ServeAll(Qdmas(matches), true);
      }
    }

    /** Put the words in place for good, and latch the QDMA channels they trigger. */
    method CarryWords(a: Access, matches: seq<nat>, ghost trial: Engine)
      requires a.ParamWords? && a.set_ < param.Length && a.word + |a.words| <= 8
      requires trial == State().(param := State().param[a.set_ := SetWords(State().param[a.set_], a.word, a.words)])
      modifies param, this`qer
      ensures State() == trial.(qer := trial.qer + ToSet(matches))
    {
      hide SetWords;
      ghost var s := State();
      PutWords(a.set_, a.word, a.words);
      assert State() == trial;
      qer := qer + ToSet(matches);
      assert State() == trial.(qer := trial.qer + ToSet(matches));
    }
  }

  lemma TriggersEnd(s: Engine, set_: nat, word: nat, n: nat)
    requires |s.qchmap| == QCHANNELS
    ensures Triggered(s, set_, word, n, QCHANNELS) == []
  {
  }

  lemma NextTrigger(s: Engine, set_: nat, word: nat, n: nat, q: nat, before: seq<nat>)
    requires |s.qchmap| == QCHANNELS && q < QCHANNELS
    ensures var m := s.qchmap[q];
            var hit := q in s.qeer && m / 32 % 512 == set_ && word <= m / 4 % 8 < word + n;
            (if hit then before + [q] else before) + Triggered(s, set_, word, n, q + 1) == before + Triggered(s, set_, word, n, q)
  {
  }

  lemma {:induction false} SameTriggers(s: Engine, t: Engine, set_: nat, word: nat, n: nat, q: nat)
    requires s.qchmap == t.qchmap && s.qeer == t.qeer && |s.qchmap| == QCHANNELS && q <= QCHANNELS
    ensures Triggered(s, set_, word, n, q) == Triggered(t, set_, word, n, q)
    decreases QCHANNELS - q
  {
    if q < QCHANNELS {
      SameTriggers(s, t, set_, word, n, q + 1);
    }
  }

  lemma LatchNone(reg: set<nat>, missed: set<nat>)
    ensures LatchAll(reg, missed, []) == (reg, missed)
  {
  }

  lemma {:induction false} LatchOneMore(reg: set<nat>, missed: set<nat>, cs: seq<nat>, c: nat)
    ensures var l := LatchAll(reg, missed, cs); LatchAll(reg, missed, cs + [c]) == Latch(l.0, l.1, c)
    decreases |cs|
  {
    if cs == [] {
      assert (cs + [c])[1..] == [];
    } else {
      assert (cs + [c])[1..] == cs[1..] + [c];
      var l := Latch(reg, missed, cs[0]);
      LatchOneMore(l.0, l.1, cs[1..], c);
    }
  }

  /** Where a run stands between two events: what is left of it is a run of the rest of the queue. */
  ghost predicate Serving<D>(port: Port<D>, run: Run<D>, ok: bool, s: Engine, b: Bus<D>, queue: seq<Event>, head: nat,
                             commit: bool) {
    && BusOk(b)
    && (ok ==> head <= |queue| <= SERVICE_LIMIT && Valid(s) && (forall e | e in queue[head..] :: Known(e))
               && run == Service(port, s, b, queue[head..], head, commit))
    && (!ok ==> run == Run(false, s, b))
  }

  lemma ServingNow<D>(port: Port<D>, run: Run<D>, s: Engine, b: Bus<D>, queue: seq<Event>, head: nat, commit: bool)
    requires Serving(port, run, true, s, b, queue, head, commit) && head < |queue|
    ensures Valid(s) && BusOk(b) && Known(queue[head]) && |queue| <= SERVICE_LIMIT && SetOf(s, queue[head]) < PARAMS
  {
    assert queue[head] in queue[head..];
    SetInRange(s, queue[head]);
    hide Service, Valid, SetOf;
  }

  /** What a method leaves is what the run it stands for leaves, half-way failures included. */
  ghost predicate Runs<D>(r: Run<D>, ok: bool, t: Engine, b: Bus<D>) {
    r == Run(ok, t, b)
  }

  lemma ServesNext<D>(port: Port<D>, run: Run<D>, s: Engine, b: Bus<D>, queue: seq<Event>, head: nat,
                      ok: bool, t: Engine, b': Bus<D>, after: seq<Event>, commit: bool)
    requires Serving(port, run, true, s, b, queue, head, commit) && head < |queue|
    requires Valid(s) && BusOk(b') && Known(queue[head]) && SetOf(s, queue[head]) < PARAMS
    requires var p := s.param[SetOf(s, queue[head])];
             var m := Transfer(port, b, p, commit);
             b' == m.bus && (if m.ok then |queue| <= SERVICE_LIMIT && Completes(s, queue, queue[head], SetOf(s, queue[head]), ok, t, after)
                             else !ok && t == s)
    ensures Serving(port, run, ok, t, b', after, head + 1, commit)
    ensures ok ==> head < SERVICE_LIMIT
  {
    var e := queue[head];
    var set_ := SetOf(s, e);
    var more, rest := SetsOff(s, set_), queue[head..];
    assert rest[0] == e && |rest| == |queue| - head;
    ServingMeans(port, run, true, s, b, queue, head, commit);
    var m := Transfer(port, b, s.param[set_], commit);
    if m.ok {
      assert Placed(s, set_) && |queue| <= SERVICE_LIMIT;
      CompletesMeans(s, queue, e, set_, ok, t, after);
      hide *;
      ServiceUnrolls(port, s, b, rest, head, commit);
      if ok {
        QueueMoves(queue, more, head);
      }
      ServingMeans(port, run, ok, t, b', after, head + 1, commit);
    } else {
      hide *;
      ServiceUnrolls(port, s, b, rest, head, commit);
      ServingMeans(port, run, ok, t, b', after, head + 1, commit);
    }
  }

  /** The queue served to its end, or stopped: the run so far is the run. */
  lemma ServesEnd<D>(port: Port<D>, run: Run<D>, s: Engine, b: Bus<D>, queue: seq<Event>, head: nat, ok: bool, commit: bool)
    requires Serving(port, run, ok, s, b, queue, head, commit) && (ok ==> head >= |queue|)
    ensures BusOk(b) && Runs(run, ok, s, b)
  {
    hide Valid, BusOk, Known;
    assert ok ==> queue[head..] == [];
  }

  lemma ServingMeans<D>(port: Port<D>, run: Run<D>, ok: bool, s: Engine, b: Bus<D>, queue: seq<Event>, head: nat, commit: bool)
    ensures Serving(port, run, ok, s, b, queue, head, commit) <==>
            && BusOk(b)
            && (ok ==> head <= |queue| <= SERVICE_LIMIT && Valid(s) && (forall e | e in queue[head..] :: Known(e))
                       && run == Service(port, s, b, queue[head..], head, commit))
            && (!ok ==> run == Run(false, s, b))
  {
    hide Service, Valid, BusOk, Known;
  }

  lemma CompletesMeans(s: Engine, before: seq<Event>, e: Event, set_: nat, ok: bool, t: Engine, after: seq<Event>)
    requires Placed(s, set_) && |before| <= SERVICE_LIMIT && Completes(s, before, e, set_, ok, t, after)
    ensures ok == (|before| + |SetsOff(s, set_)| <= SERVICE_LIMIT)
    ensures if ok then t == Completed(s, e, set_) && after == before + SetsOff(s, set_)
            else t == Stopped(s, e, set_, SERVICE_LIMIT - |before|)
  {
    hide SetsOff, Completed, Stopped, Placed;
  }

  lemma QueueMoves(queue: seq<Event>, more: seq<Event>, head: nat)
    requires head < |queue| && (forall e | e in queue[head..] :: Known(e)) && forall e | e in more :: Known(e)
    ensures (queue + more)[head + 1..] == queue[head..][1..] + more
    ensures forall e | e in (queue + more)[head + 1..] :: Known(e)
  {
    hide Known;
    assert forall e | e in queue[head..][1..] :: e in queue[head..];
  }

  lemma ServiceUnrolls<D>(port: Port<D>, s: Engine, b: Bus<D>, pending: seq<Event>, served: nat, commit: bool)
    requires BusOk(b) && Valid(s) && (forall e | e in pending :: Known(e)) && served + |pending| <= SERVICE_LIMIT
    requires pending != [] && Known(pending[0]) && SetOf(s, pending[0]) < PARAMS
    ensures var set_ := SetOf(s, pending[0]);
            var t, r := Transfer(port, b, s.param[set_], commit), Service(port, s, b, pending, served, commit);
            if t.ok && served + |pending| + |SetsOff(s, set_)| <= SERVICE_LIMIT then
              var next := pending[1..] + SetsOff(s, set_);
              && Valid(Completed(s, pending[0], set_)) && (forall e | e in next :: Known(e))
              && r == Service(port, Completed(s, pending[0], set_), t.bus, next, served + 1, commit)
            else r == Run(false, if t.ok then Stopped(s, pending[0], set_, SERVICE_LIMIT - served - |pending|) else s, t.bus)
  {
    var set_ := SetOf(s, pending[0]);
    var t := Transfer(port, b, s.param[set_], commit);
    if t.ok {
      assert ValidParam(s.param[set_]);
      hide Transfer, Completed, SetsOff, Valid, ValidParam, SetOf;
      CompletedValid(s, pending[0], set_);
      assert forall e | e in pending[1..] :: e in pending;
    }
  }

  lemma ClearedKeeps(s: Engine, e: Event)
    ensures var t := Cleared(s, e); t.param == s.param && t.qchmap == s.qchmap && t.qeer == s.qeer && t.drae == s.drae
  {
  }

  ghost function LatchedAll(s: Engine, cs: seq<nat>): Engine {
    var l := LatchAll(s.qer, s.qemr, cs);
    s.(qer := l.0, qemr := l.1)
  }

  lemma LinkTogether(s: Engine, before: seq<Event>, set_: nat, cs: seq<nat>, ok: bool, t: Engine, after: seq<Event>)
    requires Placed(s, set_) && Relinks(s.param[set_])
    requires cs == Linked(s, set_, 0) && |before| <= SERVICE_LIMIT && ok == (|before| + |cs| <= SERVICE_LIMIT)
    requires ok ==> after == before + Qdmas(cs)
    requires t == LatchedAll(s.(param := s.param[set_ := Updated(s.param, set_)]),
                             if ok then cs else cs[..SERVICE_LIMIT - |before| + 1])
    ensures Updates(s, before, set_, ok, t, after)
  {
    hide ValidParam, Relinks, LatchAll, Updated, Linked, Qdmas;
  }

  lemma Together(s: Engine, before: seq<Event>, e: Event, set_: nat, room: bool, s2: Engine, q2: seq<Event>,
                 ok: bool, t: Engine, after: seq<Event>)
    requires Placed(s, set_) && Placed(Cleared(s, e), set_) && |before| <= SERVICE_LIMIT && |s2.drae| == REGIONS
    requires Updates(Cleared(s, e), before, set_, room, s2, q2)
    requires if room then Notes(s2, q2, s.param[set_], ok, t, after) else !ok && t == s2
    ensures Completes(s, before, e, set_, ok, t, after)
  {
    hide *;
    PlacedMeans(s, set_);
    PlacedMeans(Cleared(s, e), set_);
    UpdatesMeans(Cleared(s, e), before, set_, room, s2, q2);
    CompletesFrom(s, before, e, set_, ok, t, after);
    CompletesInParts(s, e, set_, SERVICE_LIMIT - |before|);
    var p := s.param[set_];
    if room {
      NotesMeans(s2, q2, p, ok, t, after);
    }
    var cs, chained := if Relinks(p) then Linked(Cleared(s, e), set_, 0) else [], if p.Chains() then [Event(Dma, p.Tcc())] else [];
    RoomFor(before, Qdmas(cs), chained, room, q2, ok);
  }

  /** Room for the linked and then for the chained events is room for both. */
  lemma RoomFor(before: seq<Event>, linked: seq<Event>, chained: seq<Event>, room: bool, q2: seq<Event>, ok: bool)
    requires |chained| <= 1 && |before| <= SERVICE_LIMIT && room == (|before| + |linked| <= SERVICE_LIMIT)
    requires room ==> q2 == before + linked && ok == (chained != [] ==> |q2| < SERVICE_LIMIT)
    requires !room ==> !ok
    ensures ok == (|before| + |linked + chained| <= SERVICE_LIMIT)
    ensures ok ==> q2 + chained == before + (linked + chained)
    ensures room <==> |linked| <= SERVICE_LIMIT - |before|
  {
  }

  lemma ClearedPlaced(s: Engine, e: Event, set_: nat)
    requires Placed(s, set_)
    ensures Placed(Cleared(s, e), set_)
  {
    hide ValidParam;
  }

  lemma UpdatesKeep(s: Engine, before: seq<Event>, set_: nat, ok: bool, t: Engine, after: seq<Event>)
    requires Placed(s, set_) && |before| <= SERVICE_LIMIT && Updates(s, before, set_, ok, t, after)
    ensures |t.drae| == REGIONS && (ok ==> |after| <= SERVICE_LIMIT)
  {
    hide ValidParam, Relinks, Linked, LatchAll, Updated;
  }

  lemma PlacedMeans(s: Engine, set_: nat)
    ensures Placed(s, set_) <==> |s.param| == PARAMS && |s.qchmap| == QCHANNELS && |s.drae| == REGIONS && set_ < PARAMS
                                 && ValidParam(s.param[set_])
    ensures set_ < PARAMS ==> set_ < 128 == PARAMS
  {
  }

  lemma UpdatesMeans(s: Engine, before: seq<Event>, set_: nat, ok: bool, t: Engine, after: seq<Event>)
    requires Placed(s, set_) && |before| <= SERVICE_LIMIT
    ensures var cs := if Relinks(s.param[set_]) then Linked(s, set_, 0) else [];
            Updates(s, before, set_, ok, t, after) <==>
            && ok == (|before| + |cs| <= SERVICE_LIMIT)
            && if ok then t == Reloaded(s, set_) && after == before + Qdmas(cs)
               else t == Overrun(s, set_, SERVICE_LIMIT - |before|)
  {
    hide Relinks, Linked, Reloaded, Overrun, Qdmas, ValidParam;
  }

  lemma NotesMeans(s: Engine, before: seq<Event>, p: Param, ok: bool, t: Engine, after: seq<Event>)
    requires |s.drae| == REGIONS && Notes(s, before, p, ok, t, after)
    ensures ok == (p.Chains() ==> |before| < SERVICE_LIMIT)
    ensures if ok then t == Noted(s, p) && after == before + (if p.Chains() then [Event(Dma, p.Tcc())] else [])
            else t == Announced(s, p)
  {
    hide p.Chains, p.Tcc, Noted, Announced;
  }

  lemma CompletesFrom(s: Engine, before: seq<Event>, e: Event, set_: nat, ok: bool, t: Engine, after: seq<Event>)
    requires Placed(s, set_) && |before| <= SERVICE_LIMIT
    ensures Completes(s, before, e, set_, ok, t, after) <==>
            && ok == (|before| + |SetsOff(s, set_)| <= SERVICE_LIMIT)
            && if ok then t == Completed(s, e, set_) && after == before + SetsOff(s, set_)
               else t == Stopped(s, e, set_, SERVICE_LIMIT - |before|)
  {
    hide ValidParam, SetsOff, Completed, Stopped;
  }

  lemma CompletesInParts(s: Engine, e: Event, set_: nat, room: nat)
    requires Placed(s, set_)
    ensures var p, s0 := s.param[set_], Cleared(s, e);
            var cs := if Relinks(p) then Linked(s0, set_, 0) else [];
            && s0.param == s.param && s0.qchmap == s.qchmap && s0.drae == s.drae
            && |Qdmas(cs)| == |cs|
            && SetsOff(s, set_) == Qdmas(cs) + (if p.Chains() then [Event(Dma, p.Tcc())] else [])
            && Completed(s, e, set_) == Noted(Reloaded(s0, set_), p)
            && Stopped(s, e, set_, room) == if |cs| > room then Overrun(s0, set_, room) else Announced(Reloaded(s0, set_), p)
  {
    SameLinked(Cleared(s, e), s, set_, 0);
    hide ValidParam, Relinks, LatchAll, Updated, Reloaded, Noted, Announced, Linked, s.param[set_].Chains, s.param[set_].Tcc;
    assert Qdmas([]) == [];
  }

  lemma SetInRange(s: Engine, e: Event)
    requires Valid(s) && Known(e)
    ensures SetOf(s, e) < PARAMS
  {
  }

  lemma NextLink(s: Engine, set_: nat, q: nat, before: seq<nat>)
    requires |s.qchmap| == QCHANNELS && q < QCHANNELS
    ensures var matches := q in s.qeer && s.qchmap[q] / 32 % 512 == set_;
            (if matches then before + [q] else before) + Linked(s, set_, q + 1) == before + Linked(s, set_, q)
  {
  }
}
