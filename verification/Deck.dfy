/**
 The deck's position in the DSP model: milliseconds with a carried remainder, advanced by
 guest time at MAIN's tempo, wrapped at a loop's end, moved by jobs in half frames, and
 reported in CD frames and samples.

 The report is related to the exact half frame (`ReportReadsBack`), a job to the half frame
 it asks for (`JobLands`), and the position after any run of reports to the exact integral
 of rate over time (`TempoKept`).  The rate is fixed point with 20 fractional bits and the quotients are the
 source's integer divisions, so each of these is a statement about truncation.
 */
module Deck {
  import opened Common

  const U32: nat := 0x1_0000_0000
  const MS: nat := 1_000_000
  const ONE: nat := 0x100000
  const RATE_MIN: nat := 0x20000
  const RATE_MAX: nat := 0x300000

  datatype Deck = Deck(
    playing: bool, posMs: int, remNs: int, lastNs: int, rateSeen: bool,
    loopOn: bool, loopIn: int, loopOut: int, cueMs: int)

  /** What the report writes into the shared window: CD frames, and samples within one. */
  datatype Shown = Shown(frames: nat, samples: nat)

  /** Whether a sensible rate has been seen once `word` is read. */
  predicate Seen(d: Deck, word: nat) { d.rateSeen || RATE_MIN <= word % 0x1000000 <= RATE_MAX }

  /** The rate to play at, 2^20 being 1.0. */
  function Rate(d: Deck, word: nat): nat {
    var rate := word % 0x1000000;
    if rate > RATE_MAX || (rate < RATE_MIN && !Seen(d, word)) then ONE else rate
  }

  /** The position in ns. */
  function Ns(d: Deck): int { d.posMs * MS + d.remNs }

  function Wrapped(d: Deck): Deck {
    if d.loopOn && d.loopOut > d.loopIn && d.posMs >= d.loopOut then
      d.(posMs := d.loopIn + (d.posMs - d.loopIn) % (d.loopOut - d.loopIn))
    else d
  }

  /** Advance a playing deck to `now` at the rate in `word`. */
  function Advanced(d: Deck, word: nat, now: int): Deck
    requires d.lastNs <= now && d.remNs >= 0
  {
    var played := (now - d.lastNs) * Rate(d, word) / ONE + d.remNs;
    d.(posMs := d.posMs + played / MS, remNs := played % MS, lastNs := now, rateSeen := Seen(d, word))
  }

  function Reported(d: Deck, word: nat, now: int): Deck
    requires d.lastNs <= now && d.remNs >= 0
  {
    if d.playing then Wrapped(Advanced(d, word, now)) else d
  }

  function Show(posMs: int): Shown
    requires posMs >= 0
  {
    Shown(posMs * 75 / 1000 % U32, posMs * 44100 / 1000 % 588)
  }

  /** The half frame MAIN reads out of a report. */
  function ReadBack(s: Shown): nat { 2 * s.frames + if s.samples >= 294 then 1 else 0 }

  /** The half frame a position lies in. */
  function HalfFrame(posMs: int): nat requires posMs >= 0 { posMs * 150 / 1000 }

  /** A job moves the position by a count of half frames, to the first ms of the one it lands in. */
  function Job(d: Deck, count: int, param: int, now: int): Deck
    requires d.posMs >= 0
  {
    if param == 0 && count != 0 then
      var half := Max(HalfFrame(d.posMs) + count, 0);
      var landed := (half * 1000 + 149) / 150;
      d.(posMs := landed, cueMs := landed, lastNs := now)
    else d
  }

  // ------------------------------------------------------------- the report

  /** MAIN reads the half frame back out of the report, for any position; frames are a 32-bit word. */
  lemma ReportReadsBack(posMs: int)
    requires posMs >= 0
    ensures ReadBack(Show(posMs)) == HalfFrame(posMs) % (2 * U32)
  {
    var samples, h := posMs * 44100 / 1000, HalfFrame(posMs);
    SamplesToHalves(posMs);
    FramesToHalves(posMs);
    OddHalf(samples, h);
    Doubled(h);
    assert Show(posMs).frames == h / 2 % U32 && Show(posMs).samples == samples % 588;
    hide HalfFrame, Show;
  }

  lemma FramesToHalves(posMs: int)
    requires posMs >= 0
    ensures posMs * 75 / 1000 == HalfFrame(posMs) / 2
  {
    assert posMs * 75 / 1000 == posMs * 3 / 40 && posMs * 150 / 1000 == posMs * 3 / 20;
  }

  /** The samples tell which half of the frame it is. */
  lemma OddHalf(samples: nat, h: nat)
    requires samples / 294 == h
    ensures samples % 588 >= 294 <==> h % 2 == 1
  {
    var r := samples % 294;
    assert samples == 294 * h + r;
    if h % 2 == 1 {
      DivUnique(samples, 588, h / 2, 294 + r);
    } else {
      DivUnique(samples, 588, h / 2, r);
    }
  }

  lemma SamplesToHalves(posMs: int)
    requires posMs >= 0
    ensures posMs * 44100 / 1000 / 294 == posMs * 150 / 1000
  {
    var s := posMs * 441 / 10;
    assert posMs * 44100 / 1000 == s;
    var h := posMs * 3 / 20;
    assert posMs * 150 / 1000 == h;
    assert s / 294 == h;
  }

  lemma Doubled(h: nat)
    ensures 2 * (h / 2 % U32) + h % 2 == h % (2 * U32)
  {
    var q := h / (2 * U32);
    var r := h % (2 * U32);
    assert h / 2 == q * U32 + r / 2;
    DivUnique(h / 2, U32, q, r / 2);
  }

  /** A job lands exactly on its half frame, clamped at the start: the report reads it back. */
  lemma JobLands(d: Deck, count: int, now: int)
    requires d.posMs >= 0 && count != 0
    ensures var r := Job(d, count, 0, now);
            && r.posMs >= 0 && r.cueMs == r.posMs
            && HalfFrame(r.posMs) == Max(HalfFrame(d.posMs) + count, 0)
            && ReadBack(Show(r.posMs)) == Max(HalfFrame(d.posMs) + count, 0) % (2 * U32)
            && forall p | 0 <= p < r.posMs :: HalfFrame(p) < HalfFrame(r.posMs)
  {
    var r := Job(d, count, 0, now);
    var half := Max(HalfFrame(d.posMs) + count, 0);
    CeilingReads(half);
    ReportReadsBack(r.posMs);
    forall p | 0 <= p < r.posMs ensures HalfFrame(p) < half {
      assert p * 150 < half * 1000;
    }
  }

  lemma CeilingReads(half: nat)
    ensures (half * 1000 + 149) / 150 * 150 / 1000 == half
  {
    var p := (half * 1000 + 149) / 150;
    assert half * 1000 <= p * 150 <= half * 1000 + 149;
  }

  /** Jobs add up: two in a row are one for the sum, unless the first runs into the start. */
  lemma JobsAdd(d: Deck, a: int, b: int, now: int, later: int)
    requires d.posMs >= 0 && a != 0 && b != 0 && HalfFrame(d.posMs) + a >= 0
    ensures Job(d, a, 0, now).posMs >= 0
    ensures Job(Job(d, a, 0, now), b, 0, later).posMs == (Max(HalfFrame(d.posMs) + a + b, 0) * 1000 + 149) / 150
  {
    JobLands(d, a, now);
    hide HalfFrame;
  }

  // ------------------------------------------------------------------ tempo

  /** Reports that only advance: the words read and the times of the reports. */
  datatype Tick = Tick(word: nat, now: int)

  predicate Ordered(last: int, ts: seq<Tick>)
    decreases |ts|
  {
    ts == [] || (last <= ts[0].now && Ordered(ts[0].now, ts[1..]))
  }

  function Played(d: Deck, ts: seq<Tick>): (r: Deck)
    requires Ordered(d.lastNs, ts) && d.remNs >= 0
    ensures r.remNs >= 0
    decreases |ts|
  {
    if ts == [] then d else Played(Advanced(d, ts[0].word, ts[0].now), ts[1..])
  }

  /** The exact integral of rate over time, in ns times 2^20. */
  function Exact(d: Deck, ts: seq<Tick>): int
    requires Ordered(d.lastNs, ts) && d.remNs >= 0
    decreases |ts|
  {
    if ts == [] then 0
    else (ts[0].now - d.lastNs) * Rate(d, ts[0].word) + Exact(Advanced(d, ts[0].word, ts[0].now), ts[1..])
  }

  lemma AdvanceLags(d: Deck, word: nat, now: int)
    requires d.lastNs <= now && 0 <= d.remNs
    ensures var r, exact := Advanced(d, word, now), (now - d.lastNs) * Rate(d, word);
            && 0 <= r.remNs < MS && r.posMs >= d.posMs
            && (Ns(r) - Ns(d)) * ONE <= exact < (Ns(r) - Ns(d)) * ONE + ONE
  {
    var exact := (now - d.lastNs) * Rate(d, word);
    Multiple(now - d.lastNs, Rate(d, word) + 1);
    assert exact >= 0 by {
      if now - d.lastNs > 0 {
        assert exact >= 0 * Rate(d, word);
      }
    }
    var played := exact / ONE + d.remNs;
    assert played == played / MS * MS + played % MS;
  }

  /** However often it is reported, the position never runs ahead of the tempo and lags it by less than one ns a report. */
  lemma {:induction false} TempoKept(d: Deck, ts: seq<Tick>)
    requires Ordered(d.lastNs, ts) && 0 <= d.remNs
    ensures var moved := Ns(Played(d, ts)) - Ns(d);
            moved * ONE <= Exact(d, ts) <= moved * ONE + |ts| * (ONE - 1)
    decreases |ts|
  {
    if ts != [] {
      AdvanceLags(d, ts[0].word, ts[0].now);
      TempoKept(Advanced(d, ts[0].word, ts[0].now), ts[1..]);
      hide Advanced, Rate;
    }
  }

  /** The rate word as MAIN uses it: nominal until a sensible one is seen, then taken down to standing still. */
  lemma RateMeans(d: Deck, word: nat)
    ensures Rate(d, word) <= RATE_MAX
    ensures Rate(d, word) != word % 0x1000000 <==>
            word % 0x1000000 > RATE_MAX || (word % 0x1000000 < RATE_MIN && !d.rateSeen)
    ensures Seen(d, word) ==> forall now | now >= d.lastNs && d.remNs >= 0 :: Advanced(d, word, now).rateSeen
  {
  }

  lemma AdvanceReaches(d: Deck, word: nat, now: int)
    requires d.lastNs <= now && d.remNs >= 0
    ensures var r := Advanced(d, word, now); r.lastNs == now && r.remNs >= 0 && (r.rateSeen <==> Seen(d, word))
  {
  }

  lemma ExactStep(d: Deck, word: nat, now: int)
    requires d.lastNs <= now
    ensures 0 <= (now - d.lastNs) * Rate(d, word) <= (now - d.lastNs) * RATE_MAX
  {
    hide *;
    RateMeans(d, word);
    Scaled(now - d.lastNs, Rate(d, word), RATE_MAX);
  }

  lemma Scaled(t: nat, r: nat, most: nat)
    requires r <= most
    ensures 0 <= t * r <= t * most
  {
    var rest: nat := most - r;
    assert t * most == t * r + t * rest;
    if t > 0 {
      Multiple(r, t);
      Multiple(rest, t);
    }
  }

  /** When the last of some reports is, or the deck's last if there is none. */
  function LastReport(d: Deck, ts: seq<Tick>): int { if ts == [] then d.lastNs else ts[|ts| - 1].now }

  lemma {:induction false} ExactBounded(d: Deck, ts: seq<Tick>)
    requires Ordered(d.lastNs, ts) && d.remNs >= 0
    ensures 0 <= Exact(d, ts) <= (LastReport(d, ts) - d.lastNs) * RATE_MAX
    decreases |ts|
  {
    if ts != [] {
      var a := Advanced(d, ts[0].word, ts[0].now);
      AdvanceReaches(d, ts[0].word, ts[0].now);
      ExactStep(d, ts[0].word, ts[0].now);
      hide Advanced, Rate;
      ExactBounded(a, ts[1..]);
      assert LastReport(a, ts[1..]) == LastReport(d, ts);
    }
  }

  /** Whatever rate words are read, the deck never runs backwards nor faster than three times nominal. */
  lemma SpeedBounded(d: Deck, ts: seq<Tick>)
    requires Ordered(d.lastNs, ts) && 0 <= d.remNs
    ensures 0 <= Ns(Played(d, ts)) - Ns(d) <= 3 * (LastReport(d, ts) - d.lastNs)
  {
    PlayedOn(d, ts);
    TempoKept(d, ts);
    ExactBounded(d, ts);
    hide Played, Exact, Ns, LastReport;
  }

  lemma {:induction false} PlayedOn(d: Deck, ts: seq<Tick>)
    requires Ordered(d.lastNs, ts) && 0 <= d.remNs
    ensures Ns(Played(d, ts)) >= Ns(d)
    decreases |ts|
  {
    if ts != [] {
      var word, now := ts[0].word, ts[0].now;
      AdvanceLags(d, word, now);
      ExactStep(d, word, now);
      hide Advanced, Rate;
      PlayedOn(Advanced(d, word, now), ts[1..]);
    }
  }

  // ------------------------------------------------------------------- loops

  /** A crossed loop end wraps into [IN, OUT), a whole number of loops back. */
  lemma LoopWraps(d: Deck, word: nat, now: int)
    requires d.lastNs <= now && 0 <= d.remNs && d.playing && d.loopOn && d.loopOut > d.loopIn
    ensures var a, r := Advanced(d, word, now), Reported(d, word, now);
            && r.posMs < d.loopOut && r.remNs == a.remNs
            && (a.posMs >= d.loopOut ==> r.posMs >= d.loopIn)
            && (a.posMs - r.posMs) % (d.loopOut - d.loopIn) == 0
            && (a.posMs < d.loopOut ==> r == a)
  {
    var a := Advanced(d, word, now);
    var width := d.loopOut - d.loopIn;
    if a.posMs >= d.loopOut {
      var q := (a.posMs - d.loopIn) / width;
      assert a.posMs - d.loopIn == q * width + (a.posMs - d.loopIn) % width;
      assert a.posMs - Reported(d, word, now).posMs == q * width;
      Multiple(q, width);
      if q < 0 {
        assert false;
      }
      DivUnique(q * width, width, q, 0);
    } else {
      DivUnique(0, width, 0, 0);
    }
  }

  const LOOP_SLOTS: nat := 5

  /** What is known of the loop on a slot: its end by command or by a built OUT, and the slot's own point. */
  datatype Segment = Segment(endValid: bool, end: int, built: bool, point: int, outPoint: int)

  /** Apply the loop select word: loop n is 1-based, and loop 1 starts at the cue. */
  function Select(d: Deck, segments: seq<Segment>, word: nat): Deck
    requires |segments| == LOOP_SLOTS
  {
    if 1 <= word <= LOOP_SLOTS then
      var s := segments[word - 1];
      var begin, end := if word == 1 then d.cueMs else s.point, if s.endValid then s.end else s.outPoint;
      if (s.endValid || s.built) && begin >= 0 && end > begin then d.(loopOn := true, loopIn := begin, loopOut := end)
      else d.(loopOn := false)
    else d.(loopOn := false)
  }

  /** Whatever is selected, a deck that loops loops over a proper stretch, and stays inside it once its end is crossed. */
  lemma SelectedLoops(d: Deck, segments: seq<Segment>, select: nat, word: nat, now: int)
    requires |segments| == LOOP_SLOTS && d.lastNs <= now && 0 <= d.remNs && d.playing
    ensures var s := Select(d, segments, select);
            && s == d.(loopOn := s.loopOn, loopIn := s.loopIn, loopOut := s.loopOut)
            && (s.loopOn ==> 0 <= s.loopIn < s.loopOut && 1 <= select <= LOOP_SLOTS)
            && (s.loopOn ==> Reported(s, word, now).posMs < s.loopOut)
            && (s.loopOn && Advanced(s, word, now).posMs >= s.loopOut ==> Reported(s, word, now).posMs >= s.loopIn)
  {
    var s := Select(d, segments, select);
    if s.loopOn {
      LoopWraps(s, word, now);
    }
    hide Advanced, Reported;
  }

  /** A slot with an end, by command or else by a built OUT, after where the loop begins. */
  predicate Stretches(s: Segment, begin: int) {
    (s.endValid && 0 <= begin < s.end) || (!s.endValid && s.built && 0 <= begin < s.outPoint)
  }

  /** Which stretch a button selects: slot 1's begins at the cue, the others' at their point; each ends at its end, or where it was built to. */
  lemma SelectsSlot(d: Deck, segments: seq<Segment>, select: nat)
    requires |segments| == LOOP_SLOTS
    ensures var r := Select(d, segments, select);
            && r.loopOn == (1 <= select <= 5 && Stretches(segments[select - 1], if select == 1 then d.cueMs else segments[select - 1].point))
            && (r.loopOn ==> r.loopIn == (if select == 1 then d.cueMs else segments[select - 1].point)
                             && r.loopOut == if segments[select - 1].endValid then segments[select - 1].end else segments[select - 1].outPoint)
  {
  }

  /** A job moves the playhead at once: what is then played counts from the job, at the rate of the word, and no earlier. */
  lemma PlaysFromJob(d: Deck, count: int, job: int, word: nat, now: int)
    requires d.posMs >= 0 && 0 <= d.remNs && count != 0 && job <= now
    ensures var j := Job(d, count, 0, job);
            var played, exact := Ns(Advanced(j, word, now)) - Ns(j), (now - job) * Rate(d, word);
            played * ONE <= exact < played * ONE + ONE
  {
    var j := Job(d, count, 0, job);
    assert Rate(j, word) == Rate(d, word);
    AdvanceLags(j, word, now);
    hide Advanced, Rate;
  }

  // ------------------------------------------------------- the deck in place

  class Machine {
    var playing: bool
    var posMs: int
    var remNs: int
    var lastNs: int
    var rateSeen: bool
    var loopOn: bool
    var loopIn: int
    var loopOut: int
    var cueMs: int

    function State(): Deck
      reads this
    {
      Deck(playing, posMs, remNs, lastNs, rateSeen, loopOn, loopIn, loopOut, cueMs)
    }

    /** The position report. */
    method Report(word: nat, now: int) returns (shown: Shown)
      requires posMs >= 0 && remNs >= 0 && lastNs <= now && (loopOn ==> loopIn >= 0)
      modifies this
      ensures State() == Reported(old(State()), word, now)
      ensures posMs >= 0 && remNs >= 0 && shown == Show(posMs)
    {
      if playing {
        AdvanceLags(State(), word, now);
        var rate := word % 0x1000000;
        if RATE_MIN <= rate <= RATE_MAX {
          rateSeen := true;
        }
        if rate > RATE_MAX || (rate < RATE_MIN && !rateSeen) {
          rate := ONE;
        }
        var played := (now - lastNs) * rate / ONE + remNs;
        posMs := posMs + played / MS;
        remNs := played % MS;
        lastNs := now;
        if loopOn && loopOut > loopIn && posMs >= loopOut {
          posMs := loopIn + (posMs - loopIn) % (loopOut - loopIn);
        }
      }
      shown := Shown(posMs * 75 / 1000 % U32, posMs * 44100 / 1000 % 588);
    }

    /** The job branch of the tick. */
    method TakeJob(count: int, param: int, now: int)
      requires posMs >= 0
      modifies this
      ensures State() == Job(old(State()), count, param, now)
    {
      if param == 0 && count != 0 {
        var half := posMs * 150 / 1000 + count;
        if half < 0 {
          half := 0;
        }
        posMs := (half * 1000 + 149) / 150;
        cueMs := posMs;
        lastNs := now;
      }
    }
  }
}
