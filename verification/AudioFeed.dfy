/**
 One frame of audio, from memory to the wire: a McASP that asks for words, the EDMA channel its
 event reaches, and the board's loop that serves the event until nothing more is asked.
 */
module AudioFeed {
  import opened Common
  import opened Memory
  import opened Edma
  import opened EdmaPlan
  import opened EdmaGrid
  import opened EdmaTransfer
  import opened EdmaBytes
  import opened EdmaBus
  import opened EdmaPreview
  import Mcasp
  import McaspRuns

  /** The port has an instance of the McASP on it, seen by `view`: its DMA port at `address`, its event, and its count of words. */
  ghost predicate Wired<D(!new)>(port: Port<D>, view: D -> Mcasp.Mcasp, address: nat, instance: nat) {
    && HasDmaPort(port, view, address) && address < WORD
    && forall d :: port.ready(d, instance) == (Mcasp.XDATA in view(d).xstat) && port.count(d, instance) == view(d).writes
  }

  /** The channel's set moves one word of memory to the DMA port for each of its next `n` events. */
  ghost predicate Feeds(s: Engine, channel: nat, c: Config, address: nat, n: nat) {
    && Ready(s, channel)
    && var p := s.param[channel];
       && !p.AbSync() && p.ACnt() == 4 && n <= Events(p) && n <= |GridMoves(p, channel)| && Span(c, address, 4).None?
       && forall k | 0 <= k < n :: GridMoves(p, channel)[k].dst == address && Span(c, GridMoves(p, channel)[k].src, 4).Some?
  }

  /** The four bytes at `o` as a word, least significant first. */
  function WordAt(m: seq<Byte>, o: nat): nat
    requires o + 4 <= |m|
  {
    m[o] as int + 0x100 * m[o + 1] as int + 0x10000 * m[o + 2] as int + 0x1000000 * m[o + 3] as int
  }

  /** The word event `k` moves. */
  ghost function Word<D>(s: Engine, b: Bus<D>, channel: nat, address: nat, n: nat, k: nat): nat
    requires BusOk(b) && Feeds(s, channel, b.config, address, n) && k < n
  {
    WordAt(Flat(b.store), Span(b.config, GridMoves(s.param[channel], channel)[k].src, 4).value)
  }

  ghost function Words<D>(s: Engine, b: Bus<D>, channel: nat, address: nat, n: nat): (r: seq<nat>)
    requires BusOk(b) && Feeds(s, channel, b.config, address, n)
    ensures |r| == n
  {
    seq(n, k requires 0 <= k < n => Word(s, b, channel, address, n, k))
  }

  // -------------------------------------------------------------- one event

  lemma OwnIsNth(p: Param, channel: nat, k: nat)
    requires Gridded(p) && !p.AbSync() && k < Events(p)
    ensures k < |GridMoves(p, channel)|
    ensures Tagged(channel, MovesOf(After(p, k)), After(p, k).ACnt()) == [GridMoves(p, channel)[k]]
  {
    FirstMovesGrow(p, channel, k);
    FirstInGrid(p, channel, k);
    FirstInGrid(p, channel, k + 1);
    FirstCount(p, channel, k);
    FirstCount(p, channel, k + 1);
    var own := Tagged(channel, MovesOf(After(p, k)), After(p, k).ACnt());
    hide *;
    var first, grid := FirstMoves(p, channel, k + 1), GridMoves(p, channel);
    assert |own| == 1 && first[k] == own[0];
  }

  lemma FirstCount(p: Param, channel: nat, k: nat)
    requires Gridded(p) && !p.AbSync() && k <= Events(p)
    ensures |FirstMoves(p, channel, k)| == k
  {
    MovesTheGrid(p, k);
    hide Gridded, Events, MovedBy, Nth;
  }

  /** The plan of an event in the middle of such a transfer is its one move. */
  lemma EventMoves<D>(port: Port<D>, s: Engine, b: Bus<D>, channel: nat, k: nat, r: Run<D>)
    requires BusOk(b) && BusOk(r.bus) && Valid(r.engine) && Ready(s, channel) && !s.param[channel].AbSync() && k < Events(s.param[channel])
    requires Reached(port, s, b, channel, k, r)
    ensures k < |GridMoves(s.param[channel], channel)| && channel < CHANNELS && channel in r.engine.eer
    ensures EventPlan(r.engine, channel).ok && EventPlan(r.engine, channel).moves == [GridMoves(s.param[channel], channel)[k]]
  {
    var p, t, u, e := s.param[channel], r.engine, Latched(r.engine, channel), Event(Dma, channel);
    assert channel in t.eer && |s.qchmap| == QCHANNELS;
    SignalParts(port, t, r.bus, channel);
    StandsLatched(s, t, channel, k);
    assert EventPlan(t, channel) == PlanOf(u, [e], 0);
    hide Reached, Stands, Valid, Latched, Signal, Rehearses, Events, Gridded, Service, Carry, PlanOf, EventPlan;
    StandsNext(s, u, e, channel, k);
    NothingSetOff(s, u, channel, k);
    PlanOnce(u, channel, 0);
    hide Alone, Completed, SetsOff, ValidParam, QuietLink, Linked, Relinks;
    OwnIsNth(p, channel, k);
    assert OwnMoves(u, channel) == Tagged(channel, MovesOf(After(p, k)), After(p, k).ACnt());
    hide OwnMoves, Tagged, MovesOf, GridMoves;
  }

  /** The device took `word` through the DMA port. */
  ghost predicate Took<D(!new)>(view: D -> Mcasp.Mcasp, d: D, x: D, word: nat) {
    Mcasp.Shaped(view(d)) && view(x) == Mcasp.Do(view(d), Mcasp.Dma(word))
  }

  lemma PortTakes<D(!new)>(port: Port<D>, view: D -> Mcasp.Mcasp, address: nat, instance: nat, d: D, word: nat)
    requires Wired(port, view, address, instance) && view(d).writes < Mcasp.U64_MAX && word < WORD
    ensures port.write(d, address, word).Some? && Took(view, d, port.write(d, address, word).value, word)
  {
    assert Mcasp.Shaped(view(d));
    DmaWriteCounts(view(d), word);
    hide Mcasp.DmaWrite, Mcasp.Shaped;
  }

  lemma WordSmall(m: seq<Byte>, o: nat)
    requires o + 4 <= |m|
    ensures WordAt(m, o) < WORD
  {
  }

  /** A move of one word to the port. */
  ghost predicate ToPort(c: Config, m: Move, address: nat) {
    m.n == 4 && m.dst == address && Span(c, m.src, 4).Some? && Span(c, address, 4).None?
  }

  lemma MoveTaken<D(!new)>(port: Port<D>, view: D -> Mcasp.Mcasp, address: nat, instance: nat, b: Bus<D>, m: Move)
    requires BusOk(b) && Wired(port, view, address, instance) && ToPort(b.config, m, address) && view(b.device).writes < Mcasp.U64_MAX
    ensures var at := Span(b.config, m.src, 4).value;
            var r := Carry(port, b, [m], true);
            && |Flat(b.store)| == TOTAL && r.ok && r.bus == b.(device := r.bus.device)
            && Took(view, b.device, r.bus.device, WordAt(Flat(b.store), at))
  {
    hide *;
    PortMove(b, m, address);
    var word := WordAt(Flat(b.store), Span(b.config, m.src, 4).value);
    WordOut(port, b, m);
    PortTakes(port, view, address, instance, b.device, word);
  }

  lemma PortMove<D>(b: Bus<D>, m: Move, address: nat)
    requires BusOk(b) && ToPort(b.config, m, address)
    ensures m.n == 4 && m.dst == address && Span(b.config, m.src, 4).Some? && Span(b.config, m.dst, 4).None?
    ensures StoreOk(b.store) && |Flat(b.store)| == TOTAL
    ensures var at := Span(b.config, m.src, 4).value; at + 4 <= TOTAL && WordAt(Flat(b.store), at) < WORD
  {
    WordSmall(Flat(b.store), Span(b.config, m.src, 4).value);
    hide Span, WordAt;
  }

  lemma WordOut<D>(port: Port<D>, b: Bus<D>, m: Move)
    requires BusOk(b) && m.n == 4 && Span(b.config, m.src, 4).Some? && Span(b.config, m.dst, 4).None?
    requires |Flat(b.store)| == TOTAL && Span(b.config, m.src, 4).value + 4 <= TOTAL
    ensures var taken := port.write(b.device, m.dst, WordAt(Flat(b.store), Span(b.config, m.src, 4).value));
            Carry(port, b, [m], true) == if taken.Some? then Moved(true, b.(device := taken.value)) else Moved(false, b)
  {
    hide Carry, Span, Flat, BusOk;
    WordGoesOut(port, b, m);
  }

  lemma MoveSure<D(!new)>(port: Port<D>, view: D -> Mcasp.Mcasp, address: nat, instance: nat, b: Bus<D>, m: Move)
    requires Wired(port, view, address, instance) && ToPort(b.config, m, address) && view(b.device).writes < Mcasp.U64_MAX
    ensures Takes(port, b.device, Outside(b.config, [m]), |[m]|) && forall x | x in [m] :: Mapped(b.config, x)
  {
    hide Span, Takes, HasDmaPort, Sure;
    AudioIsSure(port, view, address, b, [m]);
  }

  /** One event of the transfer, served: the port took the next word of memory, and memory stands. */
  lemma FeedStep<D(!new)>(port: Port<D>, view: D -> Mcasp.Mcasp, address: nat, instance: nat,
                          s: Engine, b: Bus<D>, channel: nat, n: nat, k: nat, r: Run<D>)
    requires BusOk(b) && Feeds(s, channel, b.config, address, n) && k < n && Wired(port, view, address, instance)
    requires BusOk(r.bus) && r.bus == b.(device := r.bus.device) && Valid(r.engine) && Reached(port, s, b, channel, k, r)
    requires view(r.bus.device).writes < Mcasp.U64_MAX
    ensures var x := Signal(port, r.engine, r.bus, channel);
            x.ok && x.bus == b.(device := x.bus.device) && Took(view, r.bus.device, x.bus.device, Word(s, b, channel, address, n, k))
  {
    FeedsAt(s, channel, b.config, address, n, k);
    WordIs(s, b, channel, address, n, k);
    hide *;
    var m := GridMoves(s.param[channel], channel)[k];
    EventMoves(port, s, b, channel, k, r);
    MoveSure(port, view, address, instance, r.bus, m);
    MapDecides(port, r.engine, r.bus, channel);
    SignalIsPlan(port, r.engine, r.bus, channel);
    MoveTaken(port, view, address, instance, r.bus, m);
  }

  lemma FeedsAt(s: Engine, channel: nat, c: Config, address: nat, n: nat, k: nat)
    requires Feeds(s, channel, c, address, n) && k < n
    ensures Ready(s, channel) && !s.param[channel].AbSync() && k < Events(s.param[channel]) && k < |GridMoves(s.param[channel], channel)|
    ensures ToPort(c, GridMoves(s.param[channel], channel)[k], address)
  {
    hide Ready, Gridded, Events, Span;
  }

  lemma WordIs<D>(s: Engine, b: Bus<D>, channel: nat, address: nat, n: nat, k: nat)
    requires BusOk(b) && Feeds(s, channel, b.config, address, n) && k < n
    ensures |Flat(b.store)| == TOTAL
    ensures var at := Span(b.config, GridMoves(s.param[channel], channel)[k].src, 4);
            at.Some? && Word(s, b, channel, address, n, k) == WordAt(Flat(b.store), at.value)
  {
    hide Ready, Gridded, Events, Span, WordAt;
  }

  // -------------------------------------------------------------- one frame

  /** The board's two instances and the EDMA channels their events reach. */
  predicate Channels(instance: nat, channel: nat) { (instance == 1 && channel == 3) || (instance == 2 && channel == 5) }

  /** A McASP whose `n` transmit serializers all wait for a word, and whose count has room. */
  ghost predicate Asking(v: Mcasp.Mcasp, n: nat) {
    && Mcasp.Shaped(v) && Mcasp.Waiting(v, 0) && n == |Mcasp.Order(v, 0)| && v.writes + n <= Mcasp.U64_MAX
  }

  /** Everything the frame is about. */
  ghost predicate Frame<D(!new)>(port: Port<D>, view: D -> Mcasp.Mcasp, address: nat, instance: nat, s: Engine, b: Bus<D>, channel: nat, n: nat) {
    && BusOk(b) && Wired(port, view, address, instance) && Channels(instance, channel) && 0 < n <= 16
    && Feeds(s, channel, b.config, address, n) && Asking(view(b.device), n)
  }

  lemma FrameHas<D(!new)>(port: Port<D>, view: D -> Mcasp.Mcasp, address: nat, instance: nat, s: Engine, b: Bus<D>, channel: nat, n: nat)
    requires Frame(port, view, address, instance, s, b, channel, n)
    ensures BusOk(b) && Wired(port, view, address, instance) && Channels(instance, channel) && 0 < n <= 16 && Feeds(s, channel, b.config, address, n)
    ensures Ready(s, channel) && Valid(s) && n <= Events(s.param[channel]) && channel < |s.param| == PARAMS && Gridded(s.param[channel])
    ensures Mcasp.Shaped(view(b.device)) && Mcasp.Waiting(view(b.device), 0) && n == |Mcasp.Order(view(b.device), 0)|
    ensures view(b.device).writes + n <= Mcasp.U64_MAX
  {
    hide Events, Gridded, Wired, Mcasp.Shaped, Mcasp.Waiting, Mcasp.Order;
  }

  lemma {:induction false} FillsCount(s: Mcasp.Mcasp, after: nat, words: seq<nat>)
    requires Mcasp.Shaped(s) && Mcasp.Waiting(s, after) && |words| <= |Mcasp.Order(s, after)| && s.writes + |words| <= Mcasp.U64_MAX
    ensures Mcasp.DmaAll(s, words).writes == s.writes + |words|
    decreases |words|
  {
    hide *;
    Mcasp.DmaAllNone(s);
    if words != [] {
      var t, n := Mcasp.Do(s, Mcasp.Dma(words[0])), Mcasp.Order(s, after)[0];
      Mcasp.WaitingNext(s, after, words[0]);
      Mcasp.DmaAllFirst(s, words);
      FillsCount(t, n + 1, words[1..]);
    }
  }

  /** Where the frame stands after `k` events. */
  ghost predicate Fed<D(!new)>(view: D -> Mcasp.Mcasp, b: Bus<D>, words: seq<nat>, k: nat, r: Run<D>) {
    && r.ok && r.bus == b.(device := r.bus.device) && k <= |words| && Mcasp.Shaped(view(b.device))
    && view(r.bus.device) == Mcasp.DmaAll(view(b.device), words[..k])
    && view(r.bus.device).writes == view(b.device).writes + k
    && (|words| > 0 ==> (Mcasp.XDATA in view(r.bus.device).xstat <==> k < |words|))
  }

  lemma FedFrom<D(!new)>(view: D -> Mcasp.Mcasp, b: Bus<D>, words: seq<nat>, k: nat, r: Run<D>)
    requires Asking(view(b.device), |words|) && k <= |words| && r.ok && r.bus == b.(device := r.bus.device)
    requires Mcasp.Shaped(view(b.device)) && view(r.bus.device) == Mcasp.DmaAll(view(b.device), words[..k])
    ensures Fed(view, b, words, k, r)
  {
    var v := view(b.device);
    assert Mcasp.Order(v, 0) != [] || |words| == 0;
    Mcasp.DmaFills(v, 0, words[..k]);
    FillsCount(v, 0, words[..k]);
    hide Mcasp.Waiting, Mcasp.Order, Mcasp.DmaAll, Mcasp.Shaped;
  }

  lemma OneMore(v: Mcasp.Mcasp, words: seq<nat>, k: nat)
    requires Mcasp.Shaped(v) && k < |words|
    ensures Mcasp.DmaAll(v, words[..k + 1]) == Mcasp.Do(Mcasp.DmaAll(v, words[..k]), Mcasp.Dma(words[k]))
  {
    hide *;
    Prefix(words, k);
    Mcasp.DmaConcat(v, words[..k], [words[k]]);
    OneWord(Mcasp.DmaAll(v, words[..k]), words[k]);
  }

  lemma Prefix(words: seq<nat>, k: nat)
    requires k < |words|
    ensures words[..k + 1] == words[..k] + [words[k]]
  {
  }

  lemma OneWord(v: Mcasp.Mcasp, word: nat)
    requires Mcasp.Shaped(v)
    ensures Mcasp.DmaAll(v, [word]) == Mcasp.Do(v, Mcasp.Dma(word))
  {
    hide *;
    var one := [word];
    assert one[1..] == [];
    Mcasp.DmaAllFirst(v, one);
    Mcasp.DmaAllNone(Mcasp.Do(v, Mcasp.Dma(word)));
  }

  /** The first `k` events of the frame. */
  lemma {:induction false} FedAfter<D(!new)>(port: Port<D>, view: D -> Mcasp.Mcasp, address: nat, instance: nat,
                                             s: Engine, b: Bus<D>, channel: nat, n: nat, k: nat)
    requires Frame(port, view, address, instance, s, b, channel, n) && k <= n && BusOk(b) && Valid(s) && Feeds(s, channel, b.config, address, n)
    ensures Fed(view, b, Words(s, b, channel, address, n), k, Burst(port, s, b, channel, k))
  {
    hide *;
    var words := Words(s, b, channel, address, n);
    FrameHas(port, view, address, instance, s, b, channel, n);
    FrameAsks(port, view, address, instance, s, b, channel, n);
    if k == 0 {
      BurstNone(port, s, b, channel);
      assert words[..0] == [];
      Mcasp.DmaAllNone(view(b.device));
      FedFrom(view, b, words, 0, Burst(port, s, b, channel, 0));
    } else {
      FedAfter(port, view, address, instance, s, b, channel, n, k - 1);
      var r := Burst(port, s, b, channel, k - 1);
      FedMeans(view, b, words, k - 1, r);
      BurstStands(port, s, b, channel, k - 1);
      FeedStep(port, view, address, instance, s, b, channel, n, k - 1, r);
      BurstOne(port, s, b, channel, k);
      OneMore(view(b.device), words, k - 1);
      WordsAt(s, b, channel, address, n, k - 1);
      TookIs(view, r.bus.device, Burst(port, s, b, channel, k).bus.device, words[k - 1]);
      FedFrom(view, b, words, k, Burst(port, s, b, channel, k));
    }
  }

  lemma FrameAsks<D(!new)>(port: Port<D>, view: D -> Mcasp.Mcasp, address: nat, instance: nat, s: Engine, b: Bus<D>, channel: nat, n: nat)
    requires Frame(port, view, address, instance, s, b, channel, n)
    ensures Asking(view(b.device), n)
  {
    hide Asking;
  }

  lemma FedMeans<D(!new)>(view: D -> Mcasp.Mcasp, b: Bus<D>, words: seq<nat>, k: nat, r: Run<D>)
    requires Fed(view, b, words, k, r)
    ensures r.ok && r.bus == b.(device := r.bus.device) && k <= |words| && Mcasp.Shaped(view(b.device))
    ensures view(r.bus.device) == Mcasp.DmaAll(view(b.device), words[..k]) && view(r.bus.device).writes == view(b.device).writes + k
    ensures |words| > 0 ==> (Mcasp.XDATA in view(r.bus.device).xstat <==> k < |words|)
  {
    hide Mcasp.DmaAll, Mcasp.Shaped;
  }

  lemma TookIs<D(!new)>(view: D -> Mcasp.Mcasp, d: D, x: D, word: nat)
    requires Took(view, d, x, word)
    ensures Mcasp.Shaped(view(d)) && view(x) == Mcasp.Do(view(d), Mcasp.Dma(word))
  {
    hide Mcasp.Do, Mcasp.Shaped;
  }

  lemma WordsAt<D>(s: Engine, b: Bus<D>, channel: nat, address: nat, n: nat, k: nat)
    requires BusOk(b) && Feeds(s, channel, b.config, address, n) && k < n
    ensures Words(s, b, channel, address, n)[k] == Word(s, b, channel, address, n, k)
  {
    hide Word, Feeds;
  }

  lemma BurstNone<D>(port: Port<D>, s: Engine, b: Bus<D>, channel: nat)
    requires BusOk(b) && Valid(s)
    ensures Burst(port, s, b, channel, 0) == Run(true, s, b)
  {
    hide Valid, BusOk;
  }

  lemma BurstOne<D>(port: Port<D>, s: Engine, b: Bus<D>, channel: nat, k: nat)
    requires BusOk(b) && Valid(s) && k > 0 && Burst(port, s, b, channel, k - 1).ok
    ensures var r := Burst(port, s, b, channel, k - 1);
            BusOk(r.bus) && Valid(r.engine) && Burst(port, s, b, channel, k) == Signal(port, r.engine, r.bus, channel)
  {
    hide Valid, BusOk, Signal;
  }

  /** One turn of the board's loop. */
  lemma ServeOne<D(!new)>(port: Port<D>, s: Engine, b: Bus<D>, instance: nat, channel: nat, serializer: nat)
    requires BusOk(b) && Valid(s) && serializer <= 16 && Channels(instance, channel)
    ensures serializer == 16 || !port.ready(b.device, instance) ==> Serve(port, s, b, instance, serializer) == Run(true, s, b)
    ensures var r := Signal(port, s, b, channel);
            serializer < 16 && port.ready(b.device, instance) && r.ok
            && port.count(r.bus.device, instance) != port.count(b.device, instance) ==>
              Serve(port, s, b, instance, serializer) == Serve(port, r.engine, r.bus, instance, serializer + 1)
  {
    hide Valid, BusOk, Signal;
  }

  lemma WiredAt<D(!new)>(port: Port<D>, view: D -> Mcasp.Mcasp, address: nat, instance: nat, d: D)
    requires Wired(port, view, address, instance)
    ensures port.ready(d, instance) == (Mcasp.XDATA in view(d).xstat) && port.count(d, instance) == view(d).writes
  {
    hide HasDmaPort;
  }

  /** From any point of the frame on, the loop runs exactly the events that are left of it. */
  lemma {:induction false} ServeRest<D(!new)>(port: Port<D>, view: D -> Mcasp.Mcasp, address: nat, instance: nat,
                                              s: Engine, b: Bus<D>, channel: nat, n: nat, k: nat)
    requires Frame(port, view, address, instance, s, b, channel, n) && k <= n <= 16 && BusOk(b) && Valid(s)
    ensures var r := Burst(port, s, b, channel, k);
            r.ok && Serve(port, r.engine, r.bus, instance, k) == Burst(port, s, b, channel, n)
    decreases n - k
  {
    hide *;
    FrameHas(port, view, address, instance, s, b, channel, n);
    var words, r := Words(s, b, channel, address, n), Burst(port, s, b, channel, k);
    FedAfter(port, view, address, instance, s, b, channel, n, k);
    FedMeans(view, b, words, k, r);
    BurstGood(port, s, b, channel, k);
    WiredAt(port, view, address, instance, r.bus.device);
    ServeOne(port, r.engine, r.bus, instance, channel, k);
    if k < n {
      FedAfter(port, view, address, instance, s, b, channel, n, k + 1);
      BurstOne(port, s, b, channel, k + 1);
      var next := Burst(port, s, b, channel, k + 1);
      FedMeans(view, b, words, k + 1, next);
      WiredAt(port, view, address, instance, next.bus.device);
      ServeRest(port, view, address, instance, s, b, channel, n, k + 1);
    } else {
      RunAgain(r);
    }
  }

  lemma BurstGood<D>(port: Port<D>, s: Engine, b: Bus<D>, channel: nat, k: nat)
    requires BusOk(b) && Valid(s)
    ensures BusOk(Burst(port, s, b, channel, k).bus) && (Burst(port, s, b, channel, k).ok ==> Valid(Burst(port, s, b, channel, k).engine))
  {
    hide Burst, Valid, BusOk;
  }

  lemma RunAgain<D>(r: Run<D>)
    requires r.ok
    ensures Run(true, r.engine, r.bus) == r
  {
  }

  /**
   One frame.  When all the transmit serializers of an instance wait and the set on its event's
   channel moves a word of memory per event, the loop serves exactly one event for each: every
   serializer has then accepted its word, the words being those at the set's next sources in
   order; memory stands, the set stands after that many events, and nothing more is asked.
   */
  lemma FrameIsFed<D(!new)>(port: Port<D>, view: D -> Mcasp.Mcasp, address: nat, instance: nat,
                            s: Engine, b: Bus<D>, channel: nat, n: nat)
    requires Frame(port, view, address, instance, s, b, channel, n) && BusOk(b) && Valid(s) && Feeds(s, channel, b.config, address, n)
    requires Mcasp.Shaped(view(b.device)) && n == |Mcasp.Order(view(b.device), 0)|
    requires channel < |s.param| == PARAMS && Gridded(s.param[channel])
    ensures var r, words := Serve(port, s, b, instance, 0), Words(s, b, channel, address, n);
            && r.ok && r.bus == b.(device := r.bus.device) && Stands(s, r.engine, channel, n)
            && view(r.bus.device) == Mcasp.DmaAll(view(b.device), words)
            && Mcasp.Filled(view(b.device), view(r.bus.device), Mcasp.Order(view(b.device), 0), words)
            && !port.ready(r.bus.device, instance)
  {
    hide *;
    FrameHas(port, view, address, instance, s, b, channel, n);
    var words := Words(s, b, channel, address, n);
    BurstNone(port, s, b, channel);
    ServeRest(port, view, address, instance, s, b, channel, n, 0);
    FedAfter(port, view, address, instance, s, b, channel, n, n);
    var r := Burst(port, s, b, channel, n);
    FedMeans(view, b, words, n, r);
    assert words[..n] == words;
    Mcasp.DmaFills(view(b.device), 0, words);
    WiredAt(port, view, address, instance, r.bus.device);
    BurstStands(port, s, b, channel, n);
    ReachedStands(port, s, b, channel, n, r);
  }

  lemma ReachedStands<D>(port: Port<D>, s: Engine, b: Bus<D>, channel: nat, k: nat, r: Run<D>)
    requires BusOk(b) && channel < |s.param| == PARAMS && Gridded(s.param[channel]) && Reached(port, s, b, channel, k, r)
    ensures Stands(s, r.engine, channel, k)
  {
    hide Stands, Gridded, Carry;
  }

  /** Both instances are served, the first before the second, each its own frame. */
  lemma BothAreFed<D(!new)>(port: Port<D>, one: D -> Mcasp.Mcasp, two: D -> Mcasp.Mcasp, at: nat, at2: nat,
                            s: Engine, b: Bus<D>, m: nat, n: nat)
    requires BusOk(b) && Valid(s) && Frame(port, one, at, 1, s, b, 3, m)
    requires var r := Serve(port, s, b, 1, 0);
             r.ok ==> Frame(port, two, at2, 2, r.engine, r.bus, 5, n)
    ensures var r, t := Serve(port, s, b, 1, 0), ServeBoth(port, s, b);
            && r.ok && t.ok && t == Burst(port, r.engine, r.bus, 5, n) && r == Burst(port, s, b, 3, m)
            && !port.ready(r.bus.device, 1) && !port.ready(t.bus.device, 2)
  {
    hide *;
    BothParts(port, s, b);
    FrameHas(port, one, at, 1, s, b, 3, m);
    BurstNone(port, s, b, 3);
    ServeRest(port, one, at, 1, s, b, 3, m, 0);
    FrameIsFed(port, one, at, 1, s, b, 3, m);
    var r := Serve(port, s, b, 1, 0);
    FrameHas(port, two, at2, 2, r.engine, r.bus, 5, n);
    BurstNone(port, r.engine, r.bus, 5);
    ServeRest(port, two, at2, 2, r.engine, r.bus, 5, n, 0);
    FrameIsFed(port, two, at2, 2, r.engine, r.bus, 5, n);
  }

  lemma BothParts<D>(port: Port<D>, s: Engine, b: Bus<D>)
    requires BusOk(b) && Valid(s)
    ensures var r := Serve(port, s, b, 1, 0);
            && BusOk(r.bus) && r.bus.config == b.config && (r.ok ==> Valid(r.engine))
            && (r.ok ==> ServeBoth(port, s, b) == Serve(port, r.engine, r.bus, 2, 0))
  {
    hide Serve, BusOk, Valid;
  }

  // -------------------------------------------------- and out on the wire

  function DmaOps(words: seq<nat>): (r: seq<Mcasp.Op>)
    ensures |r| == |words|
  {
    seq(|words|, i requires 0 <= i < |words| => Mcasp.Dma(words[i]))
  }

  /** Words written through the DMA port are writes of a run, and move no mark. */
  lemma {:induction false} DmaIsPlay(count: nat, ops: seq<Mcasp.Op>, words: seq<nat>, n: nat)
    requires 0 < count <= 16 && n < count && Mcasp.Shaped(Mcasp.Play(count, ops))
    ensures Mcasp.Play(count, ops + DmaOps(words)) == Mcasp.DmaAll(Mcasp.Play(count, ops), words)
    ensures McaspRuns.Mark(count, ops + DmaOps(words), n) == McaspRuns.Mark(count, ops, n)
    decreases |words|
  {
    hide *;
    if words == [] {
      NoOps(ops);
      Mcasp.DmaAllNone(Mcasp.Play(count, ops));
    } else {
      var k := |words| - 1;
      LastOp(ops, words);
      DmaIsPlay(count, ops, words[..k], n);
      McaspRuns.RunFirst(count, ops + DmaOps(words), n);
      NotTaken(Mcasp.Play(count, ops + DmaOps(words[..k])), words[k]);
      assert words[..k + 1] == words;
      OneMore(Mcasp.Play(count, ops), words, k);
    }
  }

  lemma NoOps(ops: seq<Mcasp.Op>)
    ensures ops + DmaOps([]) == ops
  {
  }

  lemma LastOp(ops: seq<Mcasp.Op>, words: seq<nat>)
    requires words != []
    ensures var all, k := ops + DmaOps(words), |words| - 1;
            all != [] && all[..|all| - 1] == ops + DmaOps(words[..k]) && all[|all| - 1] == Mcasp.Dma(words[k])
  {
  }

  lemma NotTaken(s: Mcasp.Mcasp, word: nat)
    requires Mcasp.Shaped(s)
    ensures !McaspRuns.Taken(s, Mcasp.Dma(word))
  {
  }

  lemma {:induction false} OrderAscends(s: Mcasp.Mcasp, after: nat)
    requires Mcasp.Shaped(s)
    ensures forall i, j | 0 <= i < j < |Mcasp.Order(s, after)| :: Mcasp.Order(s, after)[i] < Mcasp.Order(s, after)[j]
    ensures forall n | n in Mcasp.Order(s, after) :: after <= n && Mcasp.IsTx(s, n)
    decreases s.count - after
  {
    var n := Mcasp.NextTx(s, after);
    if n < s.count {
      OrderAscends(s, n + 1);
      var rest := Mcasp.Order(s, n + 1);
      assert forall i | 0 <= i < |rest| :: rest[i] in rest;
      hide Mcasp.NextTx, Mcasp.IsTx;
    }
  }

  lemma {:induction false} ForPairs(ns: seq<nat>, words: seq<nat>, n: nat)
    requires |ns| == |words| && forall i, j | 0 <= i < j < |ns| :: ns[i] < ns[j]
    ensures n !in ns ==> McaspRuns.For(Mcasp.Pairs(ns, words), n) == []
    ensures forall i | 0 <= i < |ns| && ns[i] == n :: McaspRuns.For(Mcasp.Pairs(ns, words), n) == [words[i]]
    decreases |ns|
  {
    if ns != [] {
      var k := |ns| - 1;
      ForPairs(ns[..k], words[..k], n);
      assert Mcasp.Pairs(ns, words)[..k] == Mcasp.Pairs(ns[..k], words[..k]);
      McaspRuns.ForLast(Mcasp.Pairs(ns, words), n);
      hide McaspRuns.For;
    }
  }

  lemma {:induction false} DmaKeepsSet(s: Mcasp.Mcasp, words: seq<nat>)
    requires Mcasp.Shaped(s)
    ensures Mcasp.DmaAll(s, words).srctl == s.srctl && Mcasp.DmaAll(s, words).count == s.count
    decreases |words|
  {
    hide *;
    if words == [] {
      Mcasp.DmaAllNone(s);
    } else {
      Mcasp.DmaAllFirst(s, words);
      DmaKeepsOne(s, words[0]);
      DmaKeepsSet(Mcasp.Do(s, Mcasp.Dma(words[0])), words[1..]);
    }
  }

  lemma DmaKeepsOne(s: Mcasp.Mcasp, word: nat)
    requires Mcasp.Shaped(s)
    ensures Mcasp.Do(s, Mcasp.Dma(word)).srctl == s.srctl && Mcasp.Do(s, Mcasp.Dma(word)).count == s.count
  {
    hide Mcasp.NextTx, Mcasp.ActiveTx;
  }

  /** The last of some words. */
  predicate EndsWith(words: seq<nat>, w: nat) { words != [] && words[|words| - 1] == w }

  /** Serializer `n` transmits, and `w` is the last word it was given, and given since a boundary served it. */
  ghost predicate Given(count: nat, ops: seq<Mcasp.Op>, n: nat, w: nat)
    requires 0 < count <= 16
  {
    var u := Mcasp.Play(count, ops);
    && n < count && Mcasp.Shaped(u) && McaspRuns.Transmits(u, n)
    && EndsWith(McaspRuns.For(u.accepted, n), w) && EndsWith(McaspRuns.Since(count, ops, n), w)
  }

  lemma GivenLast(count: nat, ops: seq<Mcasp.Op>, words: seq<nat>, i: nat)
    requires 0 < count <= 16 && Asking(Mcasp.Play(count, ops), |words|) && i < |words|
    requires Mcasp.Shaped(Mcasp.Play(count, ops)) && |words| == |Mcasp.Order(Mcasp.Play(count, ops), 0)|
    ensures Given(count, ops + DmaOps(words), Mcasp.Order(Mcasp.Play(count, ops), 0)[i], words[i])
  {
    hide *;
    var v := Mcasp.Play(count, ops);
    var order := Mcasp.Order(v, 0);
    var n := order[i];
    OrderIsTx(count, ops, i);
    DmaIsPlay(count, ops, words, n);
    FilledWith(v, order, words);
    var u := Mcasp.Play(count, ops + DmaOps(words));
    var m, pairs := McaspRuns.Mark(count, ops, n), Mcasp.Pairs(order, words);
    ForPairs(order, words, n);
    OneEnds(words[i]);
    EndsAll(v.accepted, pairs, n, words[i]);
    EndsAll(v.accepted[m..], pairs, n, words[i]);
    Onward(v.accepted, pairs, m);
    GivenBy(count, ops + DmaOps(words), n, words[i], v);
  }

  lemma OrderIsTx(count: nat, ops: seq<Mcasp.Op>, i: nat)
    requires 0 < count <= 16 && Mcasp.Shaped(Mcasp.Play(count, ops)) && i < |Mcasp.Order(Mcasp.Play(count, ops), 0)|
    ensures var v := Mcasp.Play(count, ops);
            var order := Mcasp.Order(v, 0);
            && order[i] < count && McaspRuns.Transmits(v, order[i])
            && forall j, k | 0 <= j < k < |order| :: order[j] < order[k]
  {
    var v := Mcasp.Play(count, ops);
    OrderAscends(v, 0);
    McaspRuns.PlayShaped(count, ops, 0);
    assert Mcasp.Order(v, 0)[i] in Mcasp.Order(v, 0);
    hide Mcasp.Play, Mcasp.Order, McaspRuns.Kept, McaspRuns.Mark, McaspRuns.Starved, McaspRuns.Since;
  }

  lemma FilledWith(v: Mcasp.Mcasp, order: seq<nat>, words: seq<nat>)
    requires Mcasp.Shaped(v) && Asking(v, |words|) && order == Mcasp.Order(v, 0) && |words| == |order|
    ensures var u := Mcasp.DmaAll(v, words);
            Mcasp.Shaped(u) && u.accepted == v.accepted + Mcasp.Pairs(order, words) && u.srctl == v.srctl && u.count == v.count
  {
    Mcasp.DmaFills(v, 0, words);
    DmaKeepsSet(v, words);
    assert order[..|words|] == order;
    hide Mcasp.DmaAll, Mcasp.Order, Mcasp.Waiting;
  }

  lemma OneEnds(w: nat)
    ensures EndsWith([w], w)
  {
  }

  lemma EndsAll(a: seq<(nat, nat)>, b: seq<(nat, nat)>, n: nat, w: nat)
    requires EndsWith(McaspRuns.For(b, n), w)
    ensures EndsWith(McaspRuns.For(a + b, n), w)
  {
    McaspRuns.ForConcat(a, b, n);
    hide McaspRuns.For;
  }

  lemma Onward(a: seq<(nat, nat)>, b: seq<(nat, nat)>, m: nat)
    requires m <= |a|
    ensures (a + b)[m..] == a[m..] + b
  {
  }

  lemma GivenBy(count: nat, ops: seq<Mcasp.Op>, n: nat, w: nat, v: Mcasp.Mcasp)
    requires 0 < count <= 16 && n < count && Mcasp.Shaped(v) && McaspRuns.Transmits(v, n)
    requires var u := Mcasp.Play(count, ops);
             && Mcasp.Shaped(u) && u.srctl == v.srctl && u.count == v.count
             && EndsWith(McaspRuns.For(u.accepted, n), w)
             && McaspRuns.Mark(count, ops, n) <= |u.accepted| && EndsWith(McaspRuns.For(u.accepted[McaspRuns.Mark(count, ops, n)..], n), w)
    ensures Given(count, ops, n, w)
  {
    hide EndsWith, McaspRuns.For, Mcasp.Play, McaspRuns.Mark;
  }

  /**
   And out.  A frame's words, written in a run of the McASP whose serializers all wait, are what
   the next boundary taken sends: each transmit serializer gets its own into the shift register.
   */
  lemma FrameIsSent(count: nat, ops: seq<Mcasp.Op>, words: seq<nat>, i: nat)
    requires 0 < count <= 16 && Asking(Mcasp.Play(count, ops), |words|) && i < |words|
    requires Mcasp.Shaped(Mcasp.Play(count, ops)) && |words| == |Mcasp.Order(Mcasp.Play(count, ops), 0)|
    requires Mcasp.Shaped(Mcasp.DmaAll(Mcasp.Play(count, ops), words))
    requires McaspRuns.Taken(Mcasp.DmaAll(Mcasp.Play(count, ops), words), Mcasp.Slot)
    ensures var v, n := Mcasp.Play(count, ops), Mcasp.Order(Mcasp.Play(count, ops), 0)[i];
            var u, r := Mcasp.DmaAll(v, words), Mcasp.Do(Mcasp.DmaAll(v, words), Mcasp.Slot);
            && n < |r.xrsr| && r.xrsr[n] == words[i] && McaspRuns.Sent(r.shifted, n) == McaspRuns.Sent(u.shifted, n) + [words[i]]
  {
    hide *;
    var n := Mcasp.Order(Mcasp.Play(count, ops), 0)[i];
    OrderIsTx(count, ops, i);
    GivenLast(count, ops, words, i);
    DmaIsPlay(count, ops, words, n);
    BoundarySends(count, ops + DmaOps(words), n, words[i]);
  }

  lemma BoundarySends(count: nat, ops: seq<Mcasp.Op>, n: nat, w: nat)
    requires 0 < count <= 16 && Given(count, ops, n, w)
    requires Mcasp.Shaped(Mcasp.Play(count, ops)) && McaspRuns.Taken(Mcasp.Play(count, ops), Mcasp.Slot)
    ensures var u, r := Mcasp.Play(count, ops), Mcasp.Do(Mcasp.Play(count, ops), Mcasp.Slot);
            && n < |r.xrsr| && r.xrsr[n] == w && McaspRuns.Sent(r.shifted, n) == McaspRuns.Sent(u.shifted, n) + [w]
  {
    McaspRuns.BoundaryDelivers(count, ops, n);
    hide Mcasp.Play, Mcasp.Do, McaspRuns.For, McaspRuns.Since, McaspRuns.Sent, McaspRuns.Taken, McaspRuns.Transmits;
  }

  // ------------------------------------------------------------- a guest access

  /** Where a guest access itself leaves the engine and the bus, before anything it causes is served. */
  function Accessed<D>(port: Port<D>, s: Engine, b: Bus<D>, q: Request): (r: Run<D>)
    requires BusOk(b) && Valid(s) && Proper(q)
    ensures BusOk(r.bus) && (r.ok ==> Valid(r.engine))
  {
    if q.ToEdma? then WriteReg(port, s, b, q.a, true)
    else
      var taken := port.write(b.device, q.address, q.word);
      if taken.Some? then Run(true, s, b.(device := taken.value)) else Run(false, s, b)
  }

  /** An access that leaves both instances asking, such as the write that releases them, feeds both before it is done. */
  lemma AccessFeeds<D(!new)>(port: Port<D>, one: D -> Mcasp.Mcasp, two: D -> Mcasp.Mcasp, at: nat, at2: nat,
                             s: Engine, b: Bus<D>, q: Request, m: nat, n: nat)
    requires BusOk(b) && Valid(s) && Proper(q) && Accessed(port, s, b, q).ok
    requires var a := Accessed(port, s, b, q);
             && Frame(port, one, at, 1, a.engine, a.bus, 3, m)
             && var r := Serve(port, a.engine, a.bus, 1, 0);
                r.ok ==> Frame(port, two, at2, 2, r.engine, r.bus, 5, n)
    ensures var a, t := Accessed(port, s, b, q), Perform(port, s, b, q);
            var r := Burst(port, a.engine, a.bus, 3, m);
            && r.ok && BusOk(r.bus) && t.ok && t == Burst(port, r.engine, r.bus, 5, n) && !port.ready(r.bus.device, 1) && !port.ready(t.bus.device, 2)
  {
    hide *;
    var a := Accessed(port, s, b, q);
    PerformParts(port, s, b, q);
    BothAreFed(port, one, two, at, at2, a.engine, a.bus, m, n);
  }

  lemma PerformParts<D>(port: Port<D>, s: Engine, b: Bus<D>, q: Request)
    requires BusOk(b) && Valid(s) && Proper(q) && Accessed(port, s, b, q).ok
    ensures var a := Accessed(port, s, b, q);
            && BusOk(a.bus) && Valid(a.engine) && Perform(port, s, b, q) == ServeBoth(port, a.engine, a.bus)
            && BusOk(Serve(port, a.engine, a.bus, 1, 0).bus)
  {
    hide BusOk, Valid, ServeBoth, WriteReg;
  }
}
