/**
 The C6747's general-purpose timer (SPRUH91D chapter 28): two 32-bit counters that run as
 one 64-bit timer, chained, or separately with a prescaler, one input clock at a time.
 Bit fields are decoded; watchdog mode does not count.
 */
module Timer {
  import opened Common

  const U32: nat := 0x1_0000_0000
  const U64: nat := 0x1_0000_0000_0000_0000

  datatype Mode = Gp64 | Unchained | Watchdog | Chained
  datatype Half = Half12 | Half34

  datatype Timer = Timer(
    mode: Mode, plus: bool, run12: bool, run34: bool, prescale: nat, psc: nat,
    external12: bool, gated12: bool, enamode12: nat, enamode34: nat,
    tim12: nat, tim34: nat, prd12: nat, prd34: nat, rel12: nat, rel34: nat,
    compare: seq<nat>)

  predicate Sized(t: Timer) {
    && t.prescale < 16 && t.psc < 16 && t.enamode12 < 4 && t.enamode34 < 4
    && t.tim12 < U32 && t.tim34 < U32 && t.prd12 < U32 && t.prd34 < U32 && t.rel12 < U32 && t.rel34 < U32
    && |t.compare| == 8
  }

  /** One clock into a counter: the new counter and period, and whether it now matches. */
  datatype Count = Count(counter: nat, period: nat, matched: bool)

  function Advance(counter: nat, period: nat, reload: nat, enamode: nat): Count {
    if enamode == 0 || period == 0 then Count(counter, period, false)
    else if counter == period then
      if enamode == 1 then Count(counter, period, false)
      else Count(0, if enamode == 3 then reload else period, false)
    else Count(counter + 1, period, counter + 1 == period)
  }

  /** The divisor of the input clock that the rate of a half is known by, if the manuals fix it. */
  function Divisor(t: Timer, h: Half): Option<nat> {
    if t.external12 && (h == Half12 || t.mode != Unchained) then None
    else if h == Half12 then Some(1)
    else if t.mode != Unchained then None
    else Some(t.psc + 1)
  }

  predicate Clocked(t: Timer, h: Half) {
    !(t.gated12 && (h == Half12 || t.mode != Unchained)) && Divisor(t, h).Some?
  }

  function Compares(t: Timer): set<nat>
    requires |t.compare| == 8
  {
    if !t.plus || t.mode != Unchained then {}
    else set n | 0 <= n < 8 && t.compare[n] != 0 && t.compare[n] == t.tim12
  }

  /** A timer after one input clock, and the outputs it raised. */
  datatype Ticked = Ticked(timer: Timer, tint12: bool, tint34: bool, compares: set<nat>)

  /** The 1:2 side on its own. */
  function Tick12(t: Timer): Ticked
    requires |t.compare| == 8
  {
    if t.run12 && Clocked(t, Half12) then
      var c := Advance(t.tim12, t.prd12, t.rel12, t.enamode12);
      var u := t.(tim12 := c.counter % U32, prd12 := c.period % U32);
      Ticked(u, c.matched, false, if u.tim12 != t.tim12 then Compares(u) else {})
    else Ticked(t, false, false, {})
  }

  /** The 3:4 side on its own, behind its prescaler. */
  function Tick34(t: Timer): Ticked {
    if t.run34 && t.enamode34 != 0 && Clocked(t, Half34) then
      if t.prescale == t.psc then
        var c := Advance(t.tim34, t.prd34, t.rel34, t.enamode34);
        Ticked(t.(prescale := 0, tim34 := c.counter % U32, prd34 := c.period % U32), false, c.matched, {})
      else Ticked(t.(prescale := (t.prescale + 1) % 16), false, false, {})
    else Ticked(t, false, false, {})
  }

  function TickChained(t: Timer): Ticked {
    if t.tim34 == t.prd34 then
      var c := Advance(t.tim12, t.prd12, t.rel12, t.enamode12);
      var prd34 := if t.enamode12 == 3 && t.prd12 != 0 && t.tim12 == t.prd12 then t.rel34 else t.prd34;
      Ticked(t.(tim34 := 0, tim12 := c.counter % U32, prd12 := c.period % U32, prd34 := prd34), c.matched, false, {})
    else Ticked(t.(tim34 := (t.tim34 + 1) % U32), false, false, {})
  }

  function Joined(high: nat, low: nat): nat { high * U32 + low }

  function Tick64(t: Timer): Ticked {
    var c := Advance(Joined(t.tim34, t.tim12), Joined(t.prd34, t.prd12), Joined(t.rel34, t.rel12), t.enamode12);
    var counter := c.counter % U64;
    Ticked(t.(tim12 := counter % U32, tim34 := counter / U32, prd12 := c.period % U32, prd34 := c.period / U32),
           c.matched, false, {})
  }

  predicate WholeRuns(t: Timer) { t.run12 && t.run34 && Clocked(t, Half12) && t.enamode12 != 0 }

  function TickOne(t: Timer): (r: Ticked)
    requires |t.compare| == 8
    ensures r.timer.compare == t.compare
  {
    match t.mode
    case Watchdog => Ticked(t, false, false, {})
    case Unchained =>
      var a := Tick12(t);
      var b := Tick34(a.timer);
      Ticked(b.timer, a.tint12, b.tint34, a.compares)
    case Chained => if WholeRuns(t) then TickChained(t) else Ticked(t, false, false, {})
    case Gp64 => if WholeRuns(t) then Tick64(t) else Ticked(t, false, false, {})
  }

  /** A run of `n` clocks: the timer, how often each half matched, and how often compare register `k` did. */
  datatype Run = Run(timer: Timer, matches12: nat, matches34: nat, hits: nat)

  function Clocks(t: Timer, k: nat, n: nat): (r: Run)
    requires |t.compare| == 8
    ensures |r.timer.compare| == 8
  {
    if n == 0 then Run(t, 0, 0, 0)
    else
      var r := Clocks(t, k, n - 1);
      var u := TickOne(r.timer);
      Run(u.timer, r.matches12 + (if u.tint12 then 1 else 0), r.matches34 + (if u.tint34 then 1 else 0),
          r.hits + if k in u.compares then 1 else 0)
  }

  // ------------------------------------------------------------ closed forms

  /** A counter from zero after `n` clocks, in continuous mode with a nonzero period, and how often it matched. */
  function Turn(n: nat, period: nat): nat { n % (period + 1) }
  function Matches(n: nat, period: nat): nat { (n + 1) / (period + 1) }

  /** The clock that follows `n` of them, in figures. */
  lemma NextTurn(n: nat, period: nat)
    requires period > 0
    ensures Turn(n + 1, period) == if Turn(n, period) == period then 0 else Turn(n, period) + 1
    ensures Matches(n + 1, period) == Matches(n, period) + if Turn(n, period) + 1 == period then 1 else 0
    ensures Turn(n, period) <= period
  {
    hide *;
    var q, r := Rounds(n, period);
    TurnAt(n, period, q, r);
    if r == period {
      RoundOn(n, period, q);
      TurnAt(n + 1, period, q + 1, 0);
    } else {
      TurnAt(n + 1, period, q, r + 1);
    }
  }

  lemma Rounds(n: nat, period: nat) returns (q: nat, r: nat)
    ensures n == q * (period + 1) + r && r <= period
  {
    q, r := n / (period + 1), n % (period + 1);
  }

  lemma RoundOn(n: nat, period: nat, q: nat)
    requires n == q * (period + 1) + period
    ensures n + 1 == (q + 1) * (period + 1) + 0
  {
  }

  /** Clock `q` whole turns and `r` more, in figures. */
  lemma TurnAt(n: nat, period: nat, q: nat, r: nat)
    requires n == q * (period + 1) + r && r <= period && period > 0
    ensures Turn(n, period) == r && Matches(n, period) == q + if r == period then 1 else 0
  {
    var w := period + 1;
    DivUnique(n, w, q, r);
    if r == period {
      assert (q + 1) * w == q * w + w;
      DivUnique(n + 1, w, q + 1, 0);
    } else {
      DivUnique(n + 1, w, q, r + 1);
    }
  }

  /** One clock of a continuous counter. */
  lemma AdvanceTurns(n: nat, period: nat, reload: nat)
    requires period > 0
    ensures Advance(Turn(n, period), period, reload, 2) ==
            Count(Turn(n + 1, period), period, Matches(n + 1, period) == Matches(n, period) + 1)
    ensures Matches(n + 1, period) == Matches(n, period) || Matches(n + 1, period) == Matches(n, period) + 1
  {
    NextTurn(n, period);
    hide Turn, Matches;
  }

  /** A clock divided by `w`: how often it has come in `n` clocks, and where the divider stands. */
  function Divided(n: nat, w: nat): nat requires w > 0 { n / w }
  function Phase(n: nat, w: nat): nat requires w > 0 { n % w }

  lemma NextDivided(n: nat, w: nat)
    requires w > 0
    ensures Phase(n, w) < w
    ensures Phase(n + 1, w) == if Phase(n, w) == w - 1 then 0 else Phase(n, w) + 1
    ensures Divided(n + 1, w) == Divided(n, w) + if Phase(n, w) == w - 1 then 1 else 0
  {
    var q, r := n / w, n % w;
    assert n == q * w + r && (q + 1) * w == q * w + w;
    if r == w - 1 {
      DivUnique(n + 1, w, q + 1, 0);
    } else {
      DivUnique(n + 1, w, q, r + 1);
    }
  }

  lemma DividesFromZero(w: nat)
    requires w > 0
    ensures Divided(0, w) == 0 && Phase(0, w) == 0
  {
    DivUnique(0, w, 0, 0);
  }

  /** A continuous counter after `n` clocks and how often it has matched; one with period zero stands still. */
  function Counter(n: nat, period: nat): nat { if period > 0 then Turn(n, period) else 0 }
  function Matched(n: nat, period: nat): nat { if period > 0 then Matches(n, period) else 0 }

  lemma CounterSteps(n: nat, period: nat, reload: nat)
    ensures var c := Advance(Counter(n, period), period, reload, 2);
            && c.counter == Counter(n + 1, period) <= period && c.period == period && Counter(n, period) <= period
            && Matched(n + 1, period) == Matched(n, period) + if c.matched then 1 else 0
  {
    if period > 0 {
      AdvanceTurns(n, period, reload);
      NextTurn(n, period);
      NextTurn(n + 1, period);
    }
    hide Turn, Matches;
  }

  lemma CounterStarts(period: nat)
    ensures Counter(0, period) == 0 && Matched(0, period) == 0
  {
    if period > 0 {
      DivUnique(0, period + 1, 0, 0);
      DivUnique(1, period + 1, 0, 1);
    }
  }

  /** What the run so far amounts to, and one more clock. */
  lemma ClocksOne(t: Timer, k: nat, n: nat)
    requires |t.compare| == 8 && n > 0
    ensures var r, u := Clocks(t, k, n - 1), TickOne(Clocks(t, k, n - 1).timer);
            Clocks(t, k, n) == Run(u.timer, r.matches12 + (if u.tint12 then 1 else 0),
                                   r.matches34 + (if u.tint34 then 1 else 0), r.hits + if k in u.compares then 1 else 0)
  {
    hide TickOne;
  }

  lemma ChainedTick(t: Timer, d: nat, x: nat)
    requires Sized(t) && t.mode == Chained && WholeRuns(t) && d <= t.prd34 && x <= t.prd12 && t.enamode12 == 2
    requires Advance(x, t.prd12, t.rel12, 2).counter < U32 && Advance(x, t.prd12, t.rel12, 2).period == t.prd12
    ensures var r, c := TickOne(t.(tim34 := d, tim12 := x)), Advance(x, t.prd12, t.rel12, 2);
            && r.timer == (if d == t.prd34 then t.(tim34 := 0, tim12 := c.counter) else t.(tim34 := d + 1, tim12 := x))
            && r.tint12 == (d == t.prd34 && c.matched) && !r.tint34
  {
    var u := t.(tim34 := d, tim12 := x);
    assert WholeRuns(u);
    hide Advance, WholeRuns, Clocked;
  }

  /** Chained: the 3:4 half divides by PRD34 + 1 and the 1:2 half counts what comes out. */
  lemma {:induction false} ChainedForm(t: Timer, k: nat, n: nat)
    requires Sized(t) && t.mode == Chained && WholeRuns(t) && t.enamode12 == 2 && t.tim12 == 0 && t.tim34 == 0
    ensures var r, w := Clocks(t, k, n), t.prd34 + 1;
            && r.timer == t.(tim34 := Phase(n, w), tim12 := Counter(Divided(n, w), t.prd12))
            && r.matches12 == Matched(Divided(n, w), t.prd12) && r.matches34 == 0
  {
    hide Counter, Matched, TickOne, Advance, WholeRuns, Divided, Phase;
    var w := t.prd34 + 1;
    if n == 0 {
      CounterStarts(t.prd12);
      DividesFromZero(w);
    } else {
      hide Clocks;
      ChainedForm(t, k, n - 1);
      ClocksOne(t, k, n);
      NextDivided(n - 1, w);
      CounterSteps(Divided(n - 1, w), t.prd12, t.rel12);
      ChainedTick(t, Phase(n - 1, w), Counter(Divided(n - 1, w), t.prd12));
    }
  }

  lemma SplitJoined(v: nat)
    requires v < U64
    ensures v / U32 < U32 && v % U32 < U32 && Joined(v / U32, v % U32) == v
  {
  }

  lemma JoinedSplits(high: nat, low: nat)
    requires high < U32 && low < U32
    ensures Joined(high, low) < U64 && Joined(high, low) / U32 == high && Joined(high, low) % U32 == low
  {
    DivUnique(Joined(high, low), U32, high, low);
  }

  /** The timer as one 64-bit counter holding `v`. */
  function Holding(t: Timer, v: nat): Timer { t.(tim12 := v % U32, tim34 := v / U32) }

  lemma Tick64At(t: Timer, v: nat)
    requires Sized(t) && t.mode == Gp64 && WholeRuns(t) && t.enamode12 == 2 && v < U64
    requires var c := Advance(v, Joined(t.prd34, t.prd12), Joined(t.rel34, t.rel12), 2);
             c.counter < U64 && c.period == Joined(t.prd34, t.prd12)
    ensures var r, c := TickOne(Holding(t, v)), Advance(v, Joined(t.prd34, t.prd12), Joined(t.rel34, t.rel12), 2);
            r.timer == Holding(t, c.counter) && r.tint12 == c.matched && !r.tint34
  {
    SplitJoined(v);
    JoinedSplits(t.prd34, t.prd12);
    var u := Holding(t, v);
    assert WholeRuns(u) && u.tim34 == v / U32 && u.tim12 == v % U32;
    hide Advance, WholeRuns, Clocked, Joined;
  }

  /** 64-bit: the two halves count as one word, TIM34 the upper. */
  lemma {:induction false} Gp64Form(t: Timer, k: nat, n: nat)
    requires Sized(t) && t.mode == Gp64 && WholeRuns(t) && t.enamode12 == 2 && t.tim12 == 0 && t.tim34 == 0
    ensures var r, period := Clocks(t, k, n), Joined(t.prd34, t.prd12);
            && r.timer == Holding(t, Counter(n, period)) && r.matches12 == Matched(n, period) && r.matches34 == 0
  {
    var period := Joined(t.prd34, t.prd12);
    hide Counter, Matched, TickOne, Advance, WholeRuns, Joined;
    if n == 0 {
      CounterStarts(period);
      assert Holding(t, 0) == t;
    } else {
      hide Clocks, Holding;
      Gp64Form(t, k, n - 1);
      ClocksOne(t, k, n);
      JoinedSplits(t.prd34, t.prd12);
      hide *;
      CounterSteps(n - 1, period, Joined(t.rel34, t.rel12));
      Tick64At(t, Counter(n - 1, period));
    }
  }

  /** What a half of an unchained timer looks at, besides its own counter. */
  ghost predicate SameSetup(t: Timer, u: Timer) {
    u == t.(prescale := u.prescale, tim12 := u.tim12, tim34 := u.tim34, prd12 := u.prd12, prd34 := u.prd34)
  }

  lemma UnchainedTick(t: Timer, u: Timer)
    requires Sized(t) && t.mode == Unchained && SameSetup(t, u)
    ensures var r := TickOne(u);
            && SameSetup(t, r.timer)
            && r.timer.tim12 == Tick12(u).timer.tim12 && r.timer.prd12 == Tick12(u).timer.prd12 && r.tint12 == Tick12(u).tint12
            && r.timer.tim34 == Tick34(u).timer.tim34 && r.timer.prd34 == Tick34(u).timer.prd34
            && r.timer.prescale == Tick34(u).timer.prescale && r.tint34 == Tick34(u).tint34 && r.compares == Tick12(u).compares
  {
    assert Clocked(u, Half34) == Clocked(Tick12(u).timer, Half34);
    hide Advance, Clocked, Compares;
  }

  /** How often a nonzero compare register within the period has been met after `n` clocks. */
  function Hits(n: nat, period: nat, at: nat): nat { if 0 < at <= period then (n + period + 1 - at) / (period + 1) else 0 }

  lemma NextHit(n: nat, period: nat, at: nat)
    requires period > 0
    ensures Hits(n + 1, period, at) == Hits(n, period, at) + if at != 0 && Turn(n + 1, period) == at then 1 else 0
    ensures Hits(0, period, at) == 0
  {
    var w := period + 1;
    NextTurn(n + 1, period);
    if 0 < at <= period {
      HitsAt(n, w, at);
      HitsAt(n + 1, w, at);
      HitsAt(0, w, at);
      NextDivided(n, w);
      DividesFromZero(w);
    }
    hide Matches;
  }

  /** A residue `at` has been passed once in each full turn, and once more if this one is past it. */
  lemma HitsAt(n: nat, w: nat, at: nat)
    requires 0 < at < w
    ensures (n + w - at) / w == Divided(n, w) + if Phase(n, w) >= at then 1 else 0
  {
    var q, r := n / w, n % w;
    assert n == q * w + r && (q + 1) * w == q * w + w;
    if r >= at {
      DivUnique(n + w - at, w, q + 1, r - at);
    } else {
      DivUnique(n + w - at, w, q, r + w - at);
    }
  }

  /** Unchained, the 1:2 half: one count a clock, and every compare register met once a period. */
  lemma {:induction false} UnchainedLow(t: Timer, k: nat, n: nat)
    requires Sized(t) && t.mode == Unchained && t.run12 && Clocked(t, Half12) && t.enamode12 == 2 && t.tim12 == 0 && k < 8
    ensures var r := Clocks(t, k, n);
            && SameSetup(t, r.timer) && r.timer.prd12 == t.prd12
            && r.timer.tim12 == Counter(n, t.prd12) && r.matches12 == Matched(n, t.prd12)
            && r.hits == if t.plus then Hits(n, t.prd12, t.compare[k]) else 0
  {
    if n == 0 {
      CounterStarts(t.prd12);
      if t.prd12 > 0 {
        NextHit(0, t.prd12, t.compare[k]);
      }
      hide Counter, Matched, Hits;
    } else {
      UnchainedLow(t, k, n - 1);
      ClocksOne(t, k, n);
      var u := Clocks(t, k, n - 1).timer;
      UnchainedTick(t, u);
      CounterSteps(n - 1, t.prd12, t.rel12);
      LowTick(t, u, k);
      HitFacts(n - 1, t.prd12, t.compare[k]);
      hide Counter, Matched, Clocks, TickOne, Advance, Tick12, Tick34, Hits, Clocked;
    }
  }

  lemma LowTick(t: Timer, u: Timer, k: nat)
    requires Sized(t) && t.mode == Unchained && t.run12 && Clocked(t, Half12) && t.enamode12 == 2 && k < 8
    requires SameSetup(t, u) && u.prd12 == t.prd12 && u.tim12 <= t.prd12
    requires Advance(u.tim12, t.prd12, t.rel12, 2).counter <= t.prd12 && Advance(u.tim12, t.prd12, t.rel12, 2).period == t.prd12
    ensures var r, c := Tick12(u), Advance(u.tim12, t.prd12, t.rel12, 2);
            && r.timer.tim12 == c.counter && r.timer.prd12 == t.prd12 && r.tint12 == c.matched
            && (k in r.compares <==> t.plus && c.counter != u.tim12 && t.compare[k] != 0 && t.compare[k] == c.counter)
  {
    assert Clocked(u, Half12);
    hide Advance, Clocked;
  }

  lemma HitFacts(n: nat, period: nat, at: nat)
    ensures Hits(n + 1, period, at) == Hits(n, period, at) + if period > 0 && at != 0 && Counter(n + 1, period) == at then 1 else 0
    ensures Counter(n + 1, period) != Counter(n, period) <==> period > 0
  {
    if period > 0 {
      NextHit(n, period, at);
      NextTurn(n, period);
      hide Turn, Hits, Matches;
    }
  }

  /** Where the 3:4 half stands after `n` clocks. */
  ghost predicate HighAt(t: Timer, r: Run, n: nat) {
    var w := t.psc + 1;
    && SameSetup(t, r.timer) && r.timer.prd34 == t.prd34 && r.timer.prescale == Phase(n, w)
    && r.timer.tim34 == Counter(Divided(n, w), t.prd34) && r.matches34 == Matched(Divided(n, w), t.prd34)
  }

  lemma HighOn(t: Timer, r: Run, next: Run, n: nat)
    requires Sized(t) && t.mode == Unchained && t.run34 && Clocked(t, Half34) && t.enamode34 == 2 && |r.timer.compare| == 8
    requires HighAt(t, r, n)
    requires var u := TickOne(r.timer);
             next.timer == u.timer && next.matches34 == r.matches34 + if u.tint34 then 1 else 0
    ensures HighAt(t, next, n + 1)
  {
    var w := t.psc + 1;
    UnchainedTick(t, r.timer);
    NextDivided(n, w);
    CounterSteps(Divided(n, w), t.prd34, t.rel34);
    hide Counter, Matched, TickOne, Advance, Tick12, Tick34, Clocked, Divided, Phase;
    HighTick(t, r.timer);
  }

  /** Unchained, the 3:4 half: one count each PSC34 + 1 clocks, the divisor its rate is reported by. */
  lemma {:induction false} UnchainedHigh(t: Timer, k: nat, n: nat)
    requires Sized(t) && t.mode == Unchained && t.run34 && Clocked(t, Half34) && t.enamode34 == 2
    requires t.tim34 == 0 && t.prescale == 0
    ensures HighAt(t, Clocks(t, k, n), n) && Divisor(t, Half34) == Some(t.psc + 1)
  {
    if n == 0 {
      CounterStarts(t.prd34);
      DividesFromZero(t.psc + 1);
      hide Counter, Matched, Divided, Phase;
    } else {
      hide HighAt, Clocked, TickOne;
      UnchainedHigh(t, k, n - 1);
      ClocksOne(t, k, n);
      hide Clocks;
      HighOn(t, Clocks(t, k, n - 1), Clocks(t, k, n), n - 1);
    }
  }

  lemma HighTick(t: Timer, u: Timer)
    requires Sized(t) && t.mode == Unchained && t.run34 && Clocked(t, Half34) && t.enamode34 == 2
    requires SameSetup(t, u) && u.prd34 == t.prd34 && u.prescale <= t.psc && u.tim34 <= t.prd34
    requires Advance(u.tim34, t.prd34, t.rel34, 2).counter <= t.prd34 && Advance(u.tim34, t.prd34, t.rel34, 2).period == t.prd34
    ensures var r, c := Tick34(u), Advance(u.tim34, t.prd34, t.rel34, 2);
            && r.timer.prd34 == t.prd34
            && r.timer.prescale == (if u.prescale == t.psc then 0 else u.prescale + 1)
            && r.timer.tim34 == (if u.prescale == t.psc then c.counter else u.tim34)
            && r.tint34 == (u.prescale == t.psc && c.matched)
  {
    assert Clocked(u, Half34);
    hide Advance, Clocked;
  }

  // ------------------------------------------------------- the timer in place

  const OUT_TINT12: nat := 0
  const OUT_TINT34: nat := 1
  const OUT_CMP0: nat := 2

  class Machine {
    var regs: Timer
    /** INTCTLSTAT: the two latched matches and their interrupt enables. */
    var status12: bool
    var status34: bool
    var enable12: bool
    var enable34: bool

    /** One input clock into the registers. */
    method Clock() returns (tint12: bool, tint34: bool, compares: set<nat>)
      requires Sized(regs)
      modifies this`regs
      ensures Ticked(regs, tint12, tint34, compares) == TickOne(old(regs))
    {
      hide Clocked, Tick12, Tick34, TickChained, Tick64;
      tint12, tint34, compares := false, false, {};
      if regs.mode == Watchdog {
        return;
      }
      if regs.mode == Unchained {
        tint12, compares := Clock12();
        tint34 := Clock34();
        return;
      }
      if !regs.run12 || !regs.run34 || !Clocked(regs, Half12) || regs.enamode12 == 0 {
        return;
      }
      if regs.mode == Chained {
        tint12 := ClockChained();
      } else {
        tint12 := ClockWhole();
      }
    }

    /** The 1:2 counter of an unchained timer. */
    method Clock12() returns (tint12: bool, compares: set<nat>)
      requires |regs.compare| == 8
      modifies this`regs
      ensures Ticked(regs, tint12, false, compares) == Tick12(old(regs)) && regs.compare == old(regs).compare
    {
      hide Advance, Clocked, Compares;
      tint12, compares := false, {};
      if regs.run12 && Clocked(regs, Half12) {
        var before := regs.tim12;
        var c := Advance(regs.tim12, regs.prd12, regs.rel12, regs.enamode12);
        tint12 := c.matched;
        regs := regs.(tim12 := c.counter % U32, prd12 := c.period % U32);
        if regs.tim12 != before {
          compares := Compares(regs);
        }
      }
    }

    /** The 3:4 counter of an unchained timer, behind its prescaler. */
    method Clock34() returns (tint34: bool)
      modifies this`regs
      ensures Ticked(regs, false, tint34, {}) == Tick34(old(regs))
    {
      hide Advance, Clocked;
      tint34 := false;
      if regs.run34 && regs.enamode34 != 0 && Clocked(regs, Half34) {
        if regs.prescale == regs.psc {
          regs := regs.(prescale := 0);
          var c := Advance(regs.tim34, regs.prd34, regs.rel34, regs.enamode34);
          tint34 := c.matched;
          regs := regs.(tim34 := c.counter % U32, prd34 := c.period % U32);
        } else {
          regs := regs.(prescale := (regs.prescale + 1) % 16);
        }
      }
    }

    /** The 3:4 counter of a chained timer, and the 1:2 counter when it comes round. */
    method ClockChained() returns (tint12: bool)
      modifies this`regs
      ensures Ticked(regs, tint12, false, {}) == TickChained(old(regs))
    {
      hide Advance;
      tint12 := false;
      if regs.tim34 == regs.prd34 {
        var reload := regs.enamode12 == 3 && regs.prd12 != 0 && regs.tim12 == regs.prd12;
        regs := regs.(tim34 := 0);
        var c := Advance(regs.tim12, regs.prd12, regs.rel12, regs.enamode12);
        tint12 := c.matched;
        regs := regs.(tim12 := c.counter % U32, prd12 := c.period % U32);
        if reload {
          regs := regs.(prd34 := regs.rel34);
        }
      } else {
        regs := regs.(tim34 := (regs.tim34 + 1) % U32);
      }
    }

    /** The two counters as one of 64 bits. */
    method ClockWhole() returns (tint12: bool)
      modifies this`regs
      ensures Ticked(regs, tint12, false, {}) == Tick64(old(regs))
    {
      hide Advance, Joined;
      var c := Advance(Joined(regs.tim34, regs.tim12), Joined(regs.prd34, regs.prd12), Joined(regs.rel34, regs.rel12),
                       regs.enamode12);
      tint12 := c.matched;
      var counter := c.counter % U64;
      regs := regs.(tim12 := counter % U32, tim34 := counter / U32, prd12 := c.period % U32, prd34 := c.period / U32);
    }

    /** A clock, the status bits it latches, and the events it raises: a match is latched even when its interrupt is masked. */
    method Tick() returns (fired: set<nat>)
      requires Sized(regs)
      modifies this`regs, this`status12, this`status34
      ensures var r := if old(regs).run12 || old(regs).run34 then TickOne(old(regs)) else Ticked(old(regs), false, false, {});
              && regs == r.timer
              && status12 == (old(status12) || r.tint12) && status34 == (old(status34) || r.tint34)
              && fired == (if r.tint12 && enable12 then {OUT_TINT12} else {}) + (if r.tint34 && enable34 then {OUT_TINT34} else {})
                          + set n | n in r.compares :: OUT_CMP0 + n
    {
      fired := {};
      if !regs.run12 && !regs.run34 {
        return;
      }
      hide TickOne;
      var tint12, tint34, compares := Clock();
      fired := set n | n in compares :: OUT_CMP0 + n;
      if tint12 {
        status12 := true;
        if enable12 {
          fired := fired + {OUT_TINT12};
        }
      }
      if tint34 {
        status34 := true;
        if enable34 {
          fired := fired + {OUT_TINT34};
        }
      }
    }
  }
}
