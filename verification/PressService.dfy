/**
 Service of the press queue: when a press ends, when the next begins, that every click taken
 in is served, and what the record of each says.
 */
module PressService {
  import opened Common
  import opened Press

  // ------------------------------------------------------- when things happen

  /** The gap in force at each frame of a run. */
  function Gaps(ops: seq<Op>): seq<int>
    decreases |ops|
  {
    if ops == [] then []
    else Gaps(ops[..|ops| - 1]) + if ops[|ops| - 1].Exchange? then [Play(ops[..|ops| - 1]).gapNs] else []
  }

  /** Held from frame `first`, begun at `downAt`: on no frame after the first had its hold passed before frame `end`. */
  ghost predicate StillHeld(log: seq<Beat>, first: int, end: int, downAt: int, hold: int) {
    0 <= first <= end <= |log| && forall f | first < f < end :: log[f].now - downAt < hold
  }

  /** A press ended on the first frame, from its second on, at which its hold had passed. */
  ghost predicate Prompt(log: seq<Beat>, r: Run) {
    && 0 <= r.first < r.last < |log| && r.downAt == log[r.first].now && r.upAt == log[r.last].now
    && r.upAt - r.downAt >= r.click.hold && StillHeld(log, r.first, r.last, r.downAt, r.click.hold)
  }

  /** Some frame before frame `end`, the second or later after the press, came when the gap had passed. */
  ghost predicate GapOver(log: seq<Beat>, gaps: seq<int>, r: Run, end: int)
    requires |gaps| == |log|
  {
    0 <= r.last && exists e | r.last + MIN_FRAMES <= e < end && e < |log| :: log[e].now - r.upAt >= gaps[e]
  }

  /** Every press that has ended was prompt, and began once the gap after the one before had passed. */
  ghost predicate Past(log: seq<Beat>, gaps: seq<int>, runs: seq<Run>)
    requires |gaps| == |log|
  {
    && (forall i | 0 <= i < |runs| :: Prompt(log, runs[i]))
    && (forall i | 0 < i < |runs| :: GapOver(log, gaps, runs[i - 1], runs[i].first))
  }

  /** The phase of the panel, told from the frames alone. */
  ghost predicate Timed(p: Panel, gaps: seq<int>) {
    && |gaps| == |p.log| && Past(p.log, gaps, p.runs)
    && (match p.phase
        case Down =>
          && p.phaseFrames <= |p.log| && StillHeld(p.log, |p.log| - p.phaseFrames, |p.log|, p.since, p.active.hold)
          && 1 <= p.phaseFrames && p.since == p.log[|p.log| - p.phaseFrames].now
          && (p.runs != [] ==> GapOver(p.log, gaps, p.runs[|p.runs| - 1], |p.log| - p.phaseFrames))
        case Up =>
          p.runs != [] && p.runs[|p.runs| - 1].upAt == p.since && !GapOver(p.log, gaps, p.runs[|p.runs| - 1], |p.log|)
        case Idle => p.runs != [] ==> GapOver(p.log, gaps, p.runs[|p.runs| - 1], |p.log|))
  }

  lemma PromptGrows(log: seq<Beat>, b: Beat, r: Run)
    requires Prompt(log, r)
    ensures Prompt(log + [b], r)
  {
    var more := log + [b];
    assert forall f | 0 <= f < |log| :: more[f] == log[f];
  }

  lemma HeldGrows(log: seq<Beat>, b: Beat, first: int, end: int, downAt: int, hold: int)
    requires StillHeld(log, first, end, downAt, hold)
    ensures StillHeld(log + [b], first, end, downAt, hold)
    ensures end == |log| && b.now - downAt < hold ==> StillHeld(log + [b], first, end + 1, downAt, hold)
  {
    var more := log + [b];
    assert forall f | 0 <= f < |log| :: more[f] == log[f];
  }

  lemma OverGrows(log: seq<Beat>, gaps: seq<int>, b: Beat, g: int, r: Run, end: int)
    requires |gaps| == |log| && end <= |log|
    ensures GapOver(log + [b], gaps + [g], r, end) == GapOver(log, gaps, r, end)
  {
    var more, now := log + [b], gaps + [g];
    assert forall f | 0 <= f < |log| :: more[f] == log[f] && now[f] == gaps[f];
    if GapOver(log, gaps, r, end) {
      var e :| r.last + MIN_FRAMES <= e < end && e < |log| && log[e].now - r.upAt >= gaps[e];
      assert more[e].now - r.upAt >= now[e];
    }
  }

  /** One more frame after the press. */
  lemma OverNext(log: seq<Beat>, gaps: seq<int>, b: Beat, g: int, r: Run)
    requires |gaps| == |log| && 0 <= r.last < |log|
    ensures GapOver(log + [b], gaps + [g], r, |log| + 1) ==
            (GapOver(log, gaps, r, |log|) || (r.last + MIN_FRAMES <= |log| && b.now - r.upAt >= g))
  {
    var more, now, n := log + [b], gaps + [g], |log|;
    assert forall f | 0 <= f < n :: more[f] == log[f] && now[f] == gaps[f];
    assert more[n] == b && now[n] == g;
    if GapOver(log, gaps, r, n) {
      var e :| r.last + MIN_FRAMES <= e < n && log[e].now - r.upAt >= gaps[e];
      assert more[e].now - r.upAt >= now[e];
    }
  }

  /** A frame keeps the account of what has already ended. */
  lemma PastGrows(p: Panel, gaps: seq<int>, b: Beat)
    requires Timed(p, gaps) && Inv(p)
    ensures var log, more := p.log + [b], gaps + [p.gapNs];
            |log| == |more| && Past(log, more, p.runs)
  {
    var log, more := p.log + [b], gaps + [p.gapNs];
    forall i | 0 <= i < |p.runs| ensures Prompt(log, p.runs[i]) {
      assert Prompt(p.log, p.runs[i]);
      PromptGrows(p.log, b, p.runs[i]);
    }
    forall i | 0 < i < |p.runs| ensures GapOver(log, more, p.runs[i - 1], p.runs[i].first) {
      assert Prompt(p.log, p.runs[i]) && GapOver(p.log, gaps, p.runs[i - 1], p.runs[i].first);
      OverGrows(p.log, gaps, b, p.gapNs, p.runs[i - 1], p.runs[i].first);
    }
  }

  /** What a frame does to a press that is down. */
  lemma FrameDown(p: Panel, now: int)
    requires |p.acks| == ACKS && p.phase == Down && p.phaseFrames <= |p.log|
    ensures var r, n, b := Frame(p, now), |p.log|, Beat(now, Some(p.active));
            if p.phaseFrames + 1 >= MIN_FRAMES && now - p.since >= p.active.hold then
              r == p.(phase := Up, since := now, phaseFrames := 0, log := p.log + [b], acks := r.acks,
                      runs := p.runs + [Run(p.active, n - p.phaseFrames, n, p.since, now)])
            else r == p.(phaseFrames := p.phaseFrames + 1, log := p.log + [b])
  {
  }

  /** What it does between presses. */
  lemma FrameBetween(p: Panel, now: int)
    requires |p.acks| == ACKS && (p.phase == Up || (p.phase == Idle && p.queue == []))
    ensures var r, b, k := Frame(p, now), Beat(now, None), p.phaseFrames + 1;
            r == p.(log := p.log + [b], phaseFrames := r.phaseFrames, phase := r.phase)
            && (p.phase == Up ==> r.phaseFrames == k && r.phase == if k >= MIN_FRAMES && now - p.since >= p.gapNs then Idle else Up)
            && (p.phase == Idle ==> r.phase == Idle)
  {
  }

  lemma DownTimed(p: Panel, now: int, gaps: seq<int>)
    requires Timed(p, gaps) && Inv(p) && p.phase == Down
    ensures Timed(Frame(p, now), gaps + [p.gapNs])
  {
    hide *;
    var b := Beat(now, Some(p.active));
    DownFacts(p, now, gaps);
    PastGrows(p, gaps, b);
    var n := |p.log|;
    if p.phaseFrames + 1 >= MIN_FRAMES && now - p.since >= p.active.hold {
      var run := Run(p.active, n - p.phaseFrames, n, p.since, now);
      JustEnded(p.log + [b], gaps + [p.gapNs], run);
      EndedTimed(p, Frame(p, now), run, gaps + [p.gapNs]);
    } else {
      HeldOnTimed(p, Frame(p, now), gaps + [p.gapNs]);
    }
  }

  /** One more frame of a press that is down, in figures. */
  lemma DownFacts(p: Panel, now: int, gaps: seq<int>)
    requires Timed(p, gaps) && Inv(p) && p.phase == Down
    ensures |p.acks| == ACKS && |gaps| == |p.log|
    ensures var n, first, b := |p.log|, |p.log| - p.phaseFrames, Beat(now, Some(p.active));
            var log, g, r := p.log + [b], gaps + [p.gapNs], Frame(p, now);
            && 0 <= first < n && log[first].now == p.since && log[n] == b && |g| == |log| && MIN_FRAMES == 2
            && StillHeld(log, first, n, p.since, p.active.hold)
            && (now - p.since < p.active.hold ==> StillHeld(log, first, n + 1, p.since, p.active.hold))
            && p.phaseFrames >= 1
            && (p.runs != [] ==> GapOver(log, g, p.runs[|p.runs| - 1], first))
            && if p.phaseFrames + 1 >= MIN_FRAMES && now - p.since >= p.active.hold then
                 r == p.(phase := Up, since := now, phaseFrames := 0, log := log, acks := r.acks,
                         runs := p.runs + [Run(p.active, first, n, p.since, now)])
               else r == p.(phaseFrames := p.phaseFrames + 1, log := log)
  {
    var b, first, n := Beat(now, Some(p.active)), |p.log| - p.phaseFrames, |p.log|;
    FrameDown(p, now);
    HeldGrows(p.log, b, first, n, p.since, p.active.hold);
    if p.runs != [] {
      OverGrows(p.log, gaps, b, p.gapNs, p.runs[|p.runs| - 1], first);
    }
    hide Frame, Inv, GapOver, StillHeld, Prompt;
  }

  lemma EndedTimed(p: Panel, r: Panel, run: Run, gaps: seq<int>)
    requires r.phase == Up && r.since == run.upAt && r.runs == p.runs + [run] && |gaps| == |r.log| && !GapOver(r.log, gaps, run, |r.log|)
    requires 0 <= run.first < run.last < |r.log| && run.downAt == r.log[run.first].now && run.upAt == r.log[run.last].now
    requires run.upAt - run.downAt >= run.click.hold && StillHeld(r.log, run.first, run.last, run.downAt, run.click.hold)
    requires Past(r.log, gaps, p.runs)
    requires p.runs != [] ==> GapOver(r.log, gaps, p.runs[|p.runs| - 1], run.first)
    ensures Timed(r, gaps)
  {
    assert Prompt(r.log, run);
    hide Prompt, GapOver, StillHeld;
    assert forall i | 0 <= i < |p.runs| :: r.runs[i] == p.runs[i];
  }

  lemma HeldOnTimed(p: Panel, r: Panel, gaps: seq<int>)
    requires r.phase == Down && r.runs == p.runs && r.since == p.since && r.active == p.active && r.phaseFrames == p.phaseFrames + 1
    requires |gaps| == |r.log| == |p.log| + 1 && 0 <= |p.log| - p.phaseFrames && r.since == r.log[|p.log| - p.phaseFrames].now
    requires StillHeld(r.log, |p.log| - p.phaseFrames, |r.log|, p.since, p.active.hold)
    requires Past(r.log, gaps, p.runs)
    requires p.runs != [] ==> GapOver(r.log, gaps, p.runs[|p.runs| - 1], |p.log| - p.phaseFrames)
    ensures Timed(r, gaps)
  {
    hide Prompt, GapOver, StillHeld;
  }

  lemma JustEnded(log: seq<Beat>, gaps: seq<int>, r: Run)
    requires |gaps| == |log| && r.last + 1 == |log|
    ensures !GapOver(log, gaps, r, |log|)
  {
  }

  lemma BetweenTimed(p: Panel, now: int, gaps: seq<int>)
    requires Timed(p, gaps) && Inv(p) && (p.phase == Up || (p.phase == Idle && p.queue == []))
    ensures Timed(Frame(p, now), gaps + [p.gapNs])
  {
    var b := Beat(now, None);
    FrameBetween(p, now);
    PastGrows(p, gaps, b);
    if p.runs != [] {
      var r := p.runs[|p.runs| - 1];
      assert Prompt(p.log, r);
      assert p.phase == Up ==> r.last + p.phaseFrames + 1 == |p.log|;
      OverNext(p.log, gaps, b, p.gapNs, r);
    }
    hide Frame, Inv, GapOver, Prompt, Past;
  }

  lemma BeginTimed(p: Panel, now: int, gaps: seq<int>)
    requires Timed(p, gaps) && Inv(p) && p.phase == Idle && p.queue != []
    ensures Timed(Frame(p, now), gaps + [p.gapNs])
  {
    hide *;
    var b := Beat(now, Some(p.queue[0]));
    BeginFacts(p, now, gaps);
    PastGrows(p, gaps, b);
    if p.runs != [] {
      OverGrows(p.log, gaps, b, p.gapNs, p.runs[|p.runs| - 1], |p.log|);
    }
    HeldOnTimed(p.(since := now, active := p.queue[0], phaseFrames := 0), Frame(p, now), gaps + [p.gapNs]);
  }

  lemma BeginFacts(p: Panel, now: int, gaps: seq<int>)
    requires Timed(p, gaps) && Inv(p) && p.phase == Idle && p.queue != []
    ensures |p.acks| == ACKS
    ensures var b, r := Beat(now, Some(p.queue[0])), Frame(p, now);
            && r.phase == Down && r.runs == p.runs && r.since == now && r.active == p.queue[0] && r.phaseFrames == 1
            && r.log == p.log + [b] && r.log[|p.log|].now == now && |gaps| == |p.log|
            && StillHeld(r.log, |p.log|, |r.log|, now, p.queue[0].hold)
            && (p.runs != [] ==> GapOver(p.log, gaps, p.runs[|p.runs| - 1], |p.log|))
  {
    FrameFirst(p, now);
    hide Frame, Inv, GapOver, Prompt, Past;
  }

  lemma CommandTimed(p: Panel, op: Op, gaps: seq<int>)
    requires Timed(p, gaps) && |p.acks| == ACKS && !op.Exchange?
    ensures Timed(Do(p, op), gaps)
  {
    hide GapOver, Prompt, StillHeld, Frame;
  }

  /**
   When things happen, over any run: a press ends on the first frame, from its second on, at
   which its hold has passed; and the panel is idle again exactly when some frame after at least
   one quiet frame has come with the gap, as it stood at that frame, passed.
   */
  lemma {:induction false} RunTimed(ops: seq<Op>)
    ensures Timed(Play(ops), Gaps(ops))
    decreases |ops|
  {
    if ops == [] {
    } else {
      var front, op := ops[..|ops| - 1], ops[|ops| - 1];
      var p := Play(front);
      RunTimed(front);
      RunKeeps(front);
      PlayLast(ops);
      hide *;
      if op.Exchange? {
        DoFrame(p, op);
        if p.phase == Down {
          DownTimed(p, op.now, Gaps(front));
        } else if p.phase == Idle && p.queue != [] {
          BeginTimed(p, op.now, Gaps(front));
        } else {
          BetweenTimed(p, op.now, Gaps(front));
        }
      } else {
        InvMeans(p);
        CommandTimed(p, op, Gaps(front));
      }
    }
  }

  lemma InvMeans(p: Panel)
    requires Inv(p)
    ensures |p.acks| == ACKS
  {
  }

  lemma PlayLast(ops: seq<Op>)
    requires ops != []
    ensures var front, op := ops[..|ops| - 1], ops[|ops| - 1];
            && |Play(front).acks| == ACKS && Play(ops) == Do(Play(front), op)
            && Gaps(ops) == if op.Exchange? then Gaps(front) + [Play(front).gapNs] else Gaps(front)
  {
    hide Do;
    assert Gaps(ops[..|ops| - 1]) + [] == Gaps(ops[..|ops| - 1]);
  }

  /** The next click begins on the first frame once the gap of the press before has passed, and not sooner. */
  lemma NextBegins(ops: seq<Op>, now: int)
    requires Play(ops).queue != [] && Play(ops).phase != Down
    ensures |Gaps(ops)| == |Play(ops).log|
    ensures var p, r := Play(ops), Frame(Play(ops), now);
            var over := p.runs == [] || GapOver(p.log, Gaps(ops), p.runs[|p.runs| - 1], |p.log|);
            if over then r.phase == Down && r.active == p.queue[0] && r.queue == p.queue[1..] && r.log == p.log + [Beat(now, Some(p.queue[0]))]
            else r.queue == p.queue && r.log == p.log + [Beat(now, None)]
  {
    var p := Play(ops);
    RunTimed(ops);
    RunKeeps(ops);
    if p.phase == Idle {
      FrameFirst(p, now);
    } else {
      FrameBetween(p, now);
    }
    hide Play, Frame, GapOver, Inv, Prompt;
  }

  // --------------------------------------------------- every click is served

  /** How many late frames until the panel is idle with nothing waiting. */
  function ToServe(p: Panel): nat {
    4 * |p.queue| + match p.phase case Down => 3 case Up => (if p.phaseFrames == 0 then 2 else 1) case Idle => 0
  }

  /** `wait` is at least the gap and every hold that is still to come. */
  ghost predicate Patient(p: Panel, wait: int) {
    p.gapNs <= wait && (p.phase == Down ==> p.active.hold <= wait) && forall c | c in p.queue :: c.hold <= wait
  }

  /** A late frame always serves: it brings the panel one frame nearer to idle. */
  lemma LateFrame(p: Panel, now: int, wait: int)
    requires Inv(p) && Patient(p, wait) && ToServe(p) > 0 && (p.phase != Idle ==> p.since + wait <= now)
    ensures var r := Frame(p, now);
            ToServe(r) == ToServe(p) - 1 && Patient(r, wait) && (r.since <= now || r.since == p.since) && OnlyServes(p, r)
  {
    TailFrames(p);
    if p.phase == Down {
      FrameDown(p, now);
      hide Frame, Inv;
    } else if p.phase == Idle && p.queue != [] {
      hide Inv;
      FirstLateFrame(p, now, wait);
    } else {
      FrameBetween(p, now);
      hide Frame, Inv;
    }
  }

  /** What leaves the queue on the way is served. */
  ghost predicate OnlyServes(p: Panel, r: Panel) {
    r.accepted == p.accepted && p.gone <= r.gone && forall i | |p.gone| <= i < |r.gone| :: r.gone[i].served
  }

  lemma TailFrames(p: Panel)
    requires Inv(p)
    ensures |p.acks| == ACKS && (p.phase == Down ==> 1 <= p.phaseFrames <= |p.log|)
  {
    hide Spaced, Fifo;
  }

  lemma FirstLateFrame(p: Panel, now: int, wait: int)
    requires |p.acks| == ACKS && Patient(p, wait) && p.phase == Idle && p.queue != []
    ensures var r := Frame(p, now); ToServe(r) == ToServe(p) - 1 && Patient(r, wait) && r.since == now && OnlyServes(p, r)
  {
    FrameFirst(p, now);
    hide Frame;
    assert p.queue[0] in p.queue && forall c | c in p.queue[1..] :: c in p.queue;
  }

  function Exchanges(times: seq<int>): (r: seq<Op>)
    ensures |r| == |times|
  {
    seq(|times|, i requires 0 <= i < |times| => Exchange(times[i]))
  }

  /** Each frame comes at least `wait` after the one before, the first after `from`. */
  predicate Late(times: seq<int>, from: int, wait: int)
    decreases |times|
  {
    times == [] || (from + wait <= times[0] && Late(times[1..], times[0], wait))
  }

  /** From `p` to `q` every click waiting or down has been served, and the edges of the bit are the clicks begun. */
  ghost predicate Served(p: Panel, q: Panel, byte: nat, bit: nat) {
    && q.phase == Idle && q.queue == [] && q.accepted == Clicks(q.gone) && OnlyServes(p, q)
    && Ended(q.runs) == Begun(q.gone) && Edges(q.log, byte, bit) == Count(Begun(q.gone), byte, bit)
  }

  /**
   Service.  Whatever has gone before, once as many late frames have come as the panel has still
   to serve, every click taken in has been begun and has ended, first in first out, unless a
   clear dropped it before, and the edges of every bit are the clicks that were served.
   */
  lemma {:induction false} EveryClickServed(ops: seq<Op>, times: seq<int>, wait: int, byte: nat, bit: nat)
    requires wait >= 0 && Patient(Play(ops), wait) && Late(times, Play(ops).since, wait) && |times| == ToServe(Play(ops))
    ensures Served(Play(ops), Play(ops + Exchanges(times)), byte, bit)
    decreases |times|
  {
    hide *;
    var p := Play(ops);
    RunKeeps(ops);
    if times == [] {
      NoExchanges(ops);
      ClicksAreEdges(ops, byte, bit);
      IdleServed(p, byte, bit);
    } else {
      var now, rest := times[0], times[1..];
      ExchangesFirst(ops, times);
      PlayOne(ops, Exchange(now));
      LateFirst(times, p.since, wait);
      InvMeans(p);
      DoFrame(p, Exchange(now));
      LateFrame(p, now, wait);
      var r := Frame(p, now);
      LaterStill(rest, now, r.since, wait);
      EveryClickServed(ops + [Exchange(now)], rest, wait, byte, bit);
      ServesOn(p, r, Play(ops + Exchanges(times)), byte, bit);
    }
  }

  lemma NoExchanges(ops: seq<Op>)
    ensures ops + Exchanges([]) == ops
  {
  }

  lemma ExchangesFirst(ops: seq<Op>, times: seq<int>)
    requires times != []
    ensures ops + Exchanges(times) == (ops + [Exchange(times[0])]) + Exchanges(times[1..])
  {
  }

  lemma LateFirst(times: seq<int>, from: int, wait: int)
    requires Late(times, from, wait) && times != []
    ensures from + wait <= times[0] && Late(times[1..], times[0], wait)
  {
  }

  lemma ServesOn(p: Panel, r: Panel, q: Panel, byte: nat, bit: nat)
    requires OnlyServes(p, r) && Served(r, q, byte, bit)
    ensures Served(p, q, byte, bit)
  {
    hide Edges, Count, Begun, Clicks, Ended;
    assert forall i | 0 <= i < |r.gone| :: q.gone[i] == r.gone[i];
  }

  lemma IdleServed(p: Panel, byte: nat, bit: nat)
    requires Inv(p) && ToServe(p) == 0 && Edges(p.log, byte, bit) == Count(Begun(p.gone), byte, bit)
    ensures Served(p, p, byte, bit)
  {
    hide Spaced, Tail, Clicks, Begun, Ended, Edges, Count;
  }

  lemma LaterStill(times: seq<int>, now: int, since: int, wait: int)
    requires Late(times, now, wait)
    ensures since <= now ==> Late(times, since, wait)
  {
  }

  predicate NeverCleared(ops: seq<Op>) { forall op | op in ops :: !op.ClearAll? }

  /** Without a clear nothing is dropped, so `n` presses of a bit give exactly `n` rising edges once they are served. */
  lemma {:induction false} NothingDropped(ops: seq<Op>)
    requires NeverCleared(ops)
    ensures forall e | e in Play(ops).gone :: e.served
    decreases |ops|
  {
    if ops != [] {
      var front, op := ops[..|ops| - 1], ops[|ops| - 1];
      assert op in ops && forall x | x in front :: x in ops;
      NothingDropped(front);
      var p := Play(front);
      if op.Exchange? {
        FrameHistory(p, op.now);
        DoFrame(p, op);
      }
      hide Frame;
    }
  }

  lemma {:induction false} AllBegun(gone: seq<Exit>)
    requires forall e | e in gone :: e.served
    ensures Begun(gone) == Clicks(gone)
    decreases |gone|
  {
    if gone != [] {
      var front, last := gone[..|gone| - 1], gone[|gone| - 1];
      assert last in gone && forall e | e in front :: e in gone;
      AllBegun(front);
      assert Clicks(gone) == Clicks(front) + [last.click];
    }
  }

  /** Edges are presses: over a run without clears, served to its end. */
  lemma EdgesArePresses(ops: seq<Op>, times: seq<int>, wait: int, byte: nat, bit: nat)
    requires NeverCleared(ops) && wait >= 0 && Patient(Play(ops), wait)
    requires Late(times, Play(ops).since, wait) && |times| == ToServe(Play(ops))
    ensures Edges(Play(ops + Exchanges(times)).log, byte, bit) == Count(Play(ops).accepted, byte, bit)
  {
    EveryClickServed(ops, times, wait, byte, bit);
    assert NeverCleared(ops + Exchanges(times));
    NothingDropped(ops + Exchanges(times));
    AllBegun(Play(ops + Exchanges(times)).gone);
    hide Play, Edges, Count, Begun, Clicks, Patient;
  }

  // -------------------------------------------------------- what records say

  /** The last press with this number that has ended. */
  function RunOf(runs: seq<Run>, id: nat): Option<Run>
    decreases |runs|
  {
    if runs == [] then None
    else if runs[|runs| - 1].click.id == id then Some(runs[|runs| - 1])
    else RunOf(runs[..|runs| - 1], id)
  }

  /** What the record of a press should say; frames are numbered from 1. */
  function Report(p: Panel, id: nat): Ack {
    if p.phase == Down && p.active.id == id then Ack(id, true, false, Frames(|p.log| - p.phaseFrames + 1), 0, p.since, 0)
    else match RunOf(p.runs, id)
         case None => NO_ACK.(id := id)
         case Some(r) => Ack(id, true, true, Frames(r.first + 1), Frames(r.last + 1), r.downAt, r.upAt)
  }

  function Frames(n: int): nat { if n < 0 then 0 else n }

  /** Every record that is found tells its press. */
  ghost predicate Tells(p: Panel)
    requires |p.acks| == ACKS
  {
    forall id | 0 < id < p.nextId && Slot(p, id).Some? :: p.acks[id % ACKS] == Report(p, id)
  }

  lemma RunOfNext(runs: seq<Run>, r: Run, id: nat)
    ensures RunOf(runs + [r], id) == if r.click.id == id then Some(r) else RunOf(runs, id)
  {
    assert (runs + [r])[..|runs|] == runs;
  }

  /** No press with a number beyond those that have left the queue has ended or begun. */
  lemma NotYetBegun(p: Panel, id: nat)
    requires Inv(p) && id > |p.gone|
    ensures RunOf(p.runs, id) == None && (p.phase == Down ==> p.active.id != id)
  {
    forall c | c in Begun(p.gone) ensures c.id <= |p.gone| {
      var n := BegunHas(p.gone, c);
      assert p.accepted[n] == Clicks(p.gone)[n] == c;
    }
    hide Tail, Spaced;
    var begun := Begun(p.gone);
    assert p.phase == Down ==> begun[|begun| - 1] == p.active && p.active in begun;
    forall i | 0 <= i < |p.runs| ensures p.runs[i].click.id != id {
      assert begun[i] == Ended(p.runs)[i] == p.runs[i].click && begun[i] in begun;
    }
    hide Fifo, Begun, Ended, Clicks;
    NoRunOf(p.runs, id);
  }

  lemma {:induction false} NoRunOf(runs: seq<Run>, id: nat)
    requires forall i | 0 <= i < |runs| :: runs[i].click.id != id
    ensures RunOf(runs, id) == None
    decreases |runs|
  {
    if runs != [] {
      NoRunOf(runs[..|runs| - 1], id);
    }
  }

  /** A press command: the new record is blank, and so is the report of a press not yet begun. */
  lemma AcceptTells(p: Panel, op: Op)
    requires Inv(p) && Recorded(p) && Tells(p) && op.Press? && |p.queue| < QUEUE
    ensures |Do(p, op).acks| == ACKS && Tells(Do(p, op))
  {
    var q := Do(p, op);
    assert p.nextId > |p.gone| by { hide Tail, Spaced, Begun, Ended; }
    NotYetBegun(p, p.nextId);
    hide Inv;
    forall id | 0 < id < q.nextId && Slot(q, id).Some? ensures q.acks[id % ACKS] == Report(q, id) {
      if id != p.nextId {
        assert id % ACKS != p.nextId % ACKS && Slot(p, id).Some?;
      }
      assert Report(q, id) == Report(p, id);
    }
  }

  /** The first frame of a press notes it in its blank record. */
  lemma BeginTells(p: Panel, now: int)
    requires Inv(p) && Recorded(p) && Tells(p) && p.phase == Idle && p.queue != []
    ensures |Frame(p, now).acks| == ACKS && Tells(Frame(p, now))
  {
    var r, c := Frame(p, now), p.queue[0];
    FrameFirst(p, now);
    FirstAck(p, now);
    FrontId(p);
    NotYetBegun(p, c.id);
    hide Frame, Inv, RunOf;
    forall id | 0 < id < r.nextId && Slot(r, id).Some? ensures r.acks[id % ACKS] == Report(r, id) {
      assert Slot(p, id).Some?;
      if id != c.id {
        assert Report(r, id) == Report(p, id);
      }
    }
  }

  /** The click in front is the next in number. */
  lemma FrontId(p: Panel)
    requires Inv(p) && p.queue != []
    ensures p.queue[0].id == |p.gone| + 1 < p.nextId
  {
    hide Tail, Spaced, Begun, Ended;
    assert p.accepted[|p.gone|] == p.queue[0];
  }

  lemma FirstAck(p: Panel, now: int)
    requires |p.acks| == ACKS && p.phase == Idle && p.queue != []
    ensures var r, id, k := Frame(p, now), p.queue[0].id, p.queue[0].id % ACKS;
            r.acks == if p.acks[k].id == id then p.acks[k := p.acks[k].(down := true, first := |p.log| + 1, downAt := now)] else p.acks
  {
  }

  lemma EndAck(p: Panel, now: int)
    requires |p.acks| == ACKS && p.phase == Down && Frame(p, now).phase == Up
    ensures var r, id, k := Frame(p, now), p.active.id, p.active.id % ACKS;
            r.acks == if p.acks[k].id == id then p.acks[k := p.acks[k].(done := true, last := |p.log| + 1, upAt := now)] else p.acks
  {
  }

  /** The last frame of a press completes its record. */
  lemma DownTells(p: Panel, now: int)
    requires Inv(p) && Recorded(p) && Tells(p) && p.phase == Down
    ensures |Frame(p, now).acks| == ACKS && Tells(Frame(p, now))
  {
    var r := Frame(p, now);
    TailFrames(p);
    FrameDown(p, now);
    if r.phase == Up {
      EndAck(p, now);
      hide Frame, Inv, Report;
      forall id | 0 < id < r.nextId && Slot(r, id).Some? ensures r.acks[id % ACKS] == Report(r, id) {
        assert Slot(p, id).Some?;
        DoneReport(p, r, now, id);
      }
    } else {
      hide Frame, Inv, RunOf;
      forall id | 0 < id < r.nextId && Slot(r, id).Some? ensures r.acks[id % ACKS] == Report(r, id) {
        assert Slot(p, id).Some? && Report(r, id) == Report(p, id);
      }
    }
  }

  /** The report of a press once it has ended, and of every other. */
  lemma DoneReport(p: Panel, r: Panel, now: int, id: nat)
    requires p.phase == Down && r.phase == Up && 1 <= p.phaseFrames <= |p.log|
    requires r.runs == p.runs + [Run(p.active, |p.log| - p.phaseFrames, |p.log|, p.since, now)]
    ensures Report(r, id) ==
            if id == p.active.id then Report(p, id).(done := true, last := |p.log| + 1, upAt := now) else Report(p, id)
  {
    RunOfNext(p.runs, Run(p.active, |p.log| - p.phaseFrames, |p.log|, p.since, now), id);
    hide RunOf;
  }

  lemma SameTells(p: Panel, r: Panel)
    requires |p.acks| == ACKS && Tells(p) && r.acks == p.acks && r.nextId == p.nextId && r.runs == p.runs
    requires (p.phase != Down && r.phase != Down) || (r.phase == p.phase && r.active == p.active && r.since == p.since
                                                    && r.phaseFrames == p.phaseFrames && r.log == p.log)
    ensures Tells(r)
  {
    forall id | 0 < id < r.nextId && Slot(r, id).Some? ensures r.acks[id % ACKS] == Report(r, id) {
      assert Slot(p, id).Some? && Report(r, id) == Report(p, id);
    }
  }

  /**
   Over any run, what asking after a press is answered while its record is kept: the frames that
   first and last carried it and when, as far as it has got, and nothing of any other press.
   */
  lemma {:induction false} RecordsTell(ops: seq<Op>)
    ensures Tells(Play(ops))
    decreases |ops|
  {
    if ops != [] {
      var front, op := ops[..|ops| - 1], ops[|ops| - 1];
      var p := Play(front);
      RecordsTell(front);
      RunKeeps(front);
      AcksFound(front);
      PlayLast(ops);
      hide *;
      InvMeans(p);
      if op.Exchange? {
        DoFrame(p, op);
        if p.phase == Down {
          DownTells(p, op.now);
        } else if p.phase == Idle && p.queue != [] {
          BeginTells(p, op.now);
        } else {
          FrameBetween(p, op.now);
          SameTells(p, Frame(p, op.now));
        }
      } else if op.Press? && |p.queue| < QUEUE {
        AcceptTells(p, op);
      } else {
        OtherCommands(p, op);
        SameTells(p, Do(p, op));
      }
    }
  }

  lemma OtherCommands(p: Panel, op: Op)
    requires |p.acks| == ACKS && !op.Exchange? && (op.Press? ==> |p.queue| >= QUEUE)
    ensures var r := Do(p, op);
            && r.acks == p.acks && r.nextId == p.nextId && r.runs == p.runs && r.phase == p.phase && r.active == p.active
            && r.since == p.since && r.phaseFrames == p.phaseFrames && r.log == p.log
  {
  }

  // ------------------------------------------------------- what a press asks for

  /** The hold and the gap last set in a run; 300 ms each before any was. */
  function LastHold(ops: seq<Op>): int
    decreases |ops|
  {
    if ops == [] then 300_000_000
    else if ops[|ops| - 1].SetHold? then ops[|ops| - 1].ns else LastHold(ops[..|ops| - 1])
  }

  function LastGap(ops: seq<Op>): int
    decreases |ops|
  {
    if ops == [] then 300_000_000
    else if ops[|ops| - 1].SetGap? then ops[|ops| - 1].ns else LastGap(ops[..|ops| - 1])
  }

  lemma FrameKeepsSettings(p: Panel, now: int)
    requires |p.acks| == ACKS
    ensures var r := Frame(p, now); r.holdNs == p.holdNs && r.gapNs == p.gapNs && r.nextId == p.nextId && r.accepted == p.accepted
  {
    var b := Begin(p, now);
    assert b.holdNs == p.holdNs && b.gapNs == p.gapNs && b.nextId == p.nextId && b.accepted == p.accepted;
    hide Begin;
  }

  /** What a press command adds: the press as it was asked for, its hold the default of the moment unless it names one; or nothing, when 32 wait. */
  function Asked(ops: seq<Op>): seq<Click>
    requires ops != []
  {
    var p, op := Play(ops[..|ops| - 1]), ops[|ops| - 1];
    if op.Press? && |p.queue| < 32 then
      [Click(op.byte, op.mask, if op.hold.Some? then op.hold.value else LastHold(ops), |p.accepted| + 1)]
    else []
  }

  /** Over any run: the settings are those last made, and the accepted presses are those asked for, numbered from 1. */
  lemma {:induction false} AcceptedAsAsked(ops: seq<Op>)
    ensures Play(ops).holdNs == LastHold(ops) && Play(ops).gapNs == LastGap(ops) && Play(ops).nextId == |Play(ops).accepted| + 1
    ensures ops != [] ==> Play(ops).accepted == Play(ops[..|ops| - 1]).accepted + Asked(ops)
    decreases |ops|
  {
    hide Do;
    if ops != [] {
      AcceptedAsAsked(ops[..|ops| - 1]);
      OpSettles(Play(ops[..|ops| - 1]), ops[|ops| - 1]);
    }
  }

  lemma OpSettles(p: Panel, op: Op)
    requires |p.acks| == ACKS
    ensures var r := Do(p, op);
            && r.holdNs == (if op.SetHold? then op.ns else p.holdNs) && r.gapNs == (if op.SetGap? then op.ns else p.gapNs)
            && (if op.Press? && |p.queue| < 32 then
                  && r.accepted == p.accepted + [Click(op.byte, op.mask, if op.hold.Some? then op.hold.value else p.holdNs, p.nextId)]
                  && r.nextId == p.nextId + 1
                else r.accepted == p.accepted && r.nextId == p.nextId)
  {
    if op.Exchange? {
      FrameKeepsSettings(p, op.now);
    }
    hide Frame;
  }

  /** What goes to the panel's payload: its own bits and, while a press is down, the press's bits as well. */
  lemma DrivenBits(payload: seq<set<nat>>, pulse: Option<Click>, i: nat, bit: nat)
    requires i < |payload|
    ensures bit in Driven(payload, pulse)[i] <==>
              bit in payload[i] || (pulse.Some? && pulse.value.byte == i && bit in pulse.value.mask)
  {
  }
}
