/**
 The counters of the timer in every counting mode: one-shot (1) counts to its period and stands,
 continuous (2) goes round, and continuous with reload (3) takes a new period at each match.
 */
module TimerModes {
  import opened Common
  import opened Timer

  predicate Counts(mode: nat) { 1 <= mode <= 3 }

  /** A counter from zero after `n` clocks, with period `p` and reload value `r`. */
  function CounterIn(mode: nat, n: nat, p: nat, r: nat): nat {
    if p == 0 then 0
    else if mode == 1 then (if n <= p then n else p)
    else if mode == 2 then n % (p + 1)
    else if n <= p then n
    else if r == 0 then 0 else (n - p - 1) % (r + 1)
  }

  /** Its period by then. */
  function PeriodIn(mode: nat, n: nat, p: nat, r: nat): nat { if mode == 3 && 0 < p < n then r else p }

  /** How often it has matched: when one-shot once and never again. */
  function MatchesIn(mode: nat, n: nat, p: nat, r: nat): nat {
    if p == 0 || n < p then 0
    else if mode == 1 then 1
    else if mode == 2 then (n + 1) / (p + 1)
    else if n == p || r == 0 then 1
    else 1 + (n - p) / (r + 1)
  }

  /** One more clock. */
  lemma StepIn(mode: nat, n: nat, p: nat, r: nat)
    requires Counts(mode)
    ensures var c := Advance(CounterIn(mode, n, p, r), PeriodIn(mode, n, p, r), r, mode);
            && c.counter == CounterIn(mode, n + 1, p, r) && c.period == PeriodIn(mode, n + 1, p, r)
            && MatchesIn(mode, n + 1, p, r) == MatchesIn(mode, n, p, r) + (if c.matched then 1 else 0)
    ensures CounterIn(mode, n, p, r) <= PeriodIn(mode, n, p, r)
  {
    if p > 0 && mode == 1 {
      hide Turn, Matches, Counter, Matched;
    } else if p > 0 && mode == 2 {
      RoundStep(n, p, r);
      hide *;
    } else if p > 0 {
      ReloadStep(n, p, r);
      hide *;
    }
  }

  lemma RoundStep(n: nat, p: nat, r: nat)
    requires p > 0
    ensures var c := Advance(CounterIn(2, n, p, r), PeriodIn(2, n, p, r), r, 2);
            && c.counter == CounterIn(2, n + 1, p, r) && c.period == PeriodIn(2, n + 1, p, r)
            && MatchesIn(2, n + 1, p, r) == MatchesIn(2, n, p, r) + (if c.matched then 1 else 0)
    ensures CounterIn(2, n, p, r) <= PeriodIn(2, n, p, r)
  {
    CounterSteps(n, p, r);
    InRound(n, p, r);
    InRound(n + 1, p, r);
    hide Counter, Matched, Advance, CounterIn, MatchesIn;
  }

  lemma InRound(n: nat, p: nat, r: nat)
    requires p > 0
    ensures CounterIn(2, n, p, r) == Counter(n, p) && MatchesIn(2, n, p, r) == Matched(n, p)
  {
    if n < p {
      DivUnique(n + 1, p + 1, 0, n + 1);
    }
  }

  lemma ReloadStep(n: nat, p: nat, r: nat)
    requires p > 0
    ensures var c := Advance(CounterIn(3, n, p, r), PeriodIn(3, n, p, r), r, 3);
            && c.counter == CounterIn(3, n + 1, p, r) && c.period == PeriodIn(3, n + 1, p, r)
            && MatchesIn(3, n + 1, p, r) == MatchesIn(3, n, p, r) + (if c.matched then 1 else 0)
    ensures CounterIn(3, n, p, r) <= PeriodIn(3, n, p, r)
  {
    if n < p {
      hide Turn, Matches, Counter, Matched;
    } else if n == p {
      AfterReload(p + 1, p, r);
      CounterStarts(r);
      hide Turn, Matches;
    } else {
      AfterReload(n, p, r);
      AfterReload(n + 1, p, r);
      CounterSteps(n - p - 1, r, r);
      SameAdvance(Counter(n - p - 1, r), r);
      hide *;
    }
  }

  lemma SameAdvance(counter: nat, r: nat)
    ensures Advance(counter, r, r, 3) == Advance(counter, r, r, 2)
  {
  }

  lemma AfterReload(n: nat, p: nat, r: nat)
    requires 0 < p < n
    ensures CounterIn(3, n, p, r) == Counter(n - p - 1, r) && MatchesIn(3, n, p, r) == 1 + Matched(n - p - 1, r)
    ensures PeriodIn(3, n, p, r) == r
  {
  }

  // ------------------------------------------------------------ whole timers

  lemma EightCompares(t: Timer)
    requires LowRuns(t) || HighRuns(t) || ChainedRuns(t)
    ensures |t.compare| == 8
  {
  }

  /** A run and the same with one clock more. */
  ghost predicate OneOn(r: Run, next: Run)
    requires |r.timer.compare| == 8
  {
    var u := TickOne(r.timer);
    && next.timer == u.timer && next.matches12 == r.matches12 + (if u.tint12 then 1 else 0)
    && next.matches34 == r.matches34 + (if u.tint34 then 1 else 0)
  }

  lemma RunsOn(t: Timer, k: nat, n: nat)
    requires |t.compare| == 8 && n > 0
    ensures |Clocks(t, k, n - 1).timer.compare| == 8 && OneOn(Clocks(t, k, n - 1), Clocks(t, k, n))
  {
    ClocksOne(t, k, n);
    hide Clocks, TickOne;
  }

  /** Where the 1:2 half stands after `n` clocks. */
  ghost predicate LowIs(t: Timer, r: Run, n: nat) {
    && SameSetup(t, r.timer) && r.timer.tim12 == CounterIn(t.enamode12, n, t.prd12, t.rel12)
    && r.timer.prd12 == PeriodIn(t.enamode12, n, t.prd12, t.rel12)
    && r.matches12 == MatchesIn(t.enamode12, n, t.prd12, t.rel12)
  }

  /** An unchained timer whose 1:2 half runs from the clock. */
  ghost predicate LowRuns(t: Timer) {
    Sized(t) && t.mode == Unchained && t.run12 && !t.gated12 && !t.external12 && Counts(t.enamode12)
  }

  /** The 1:2 half of an unchained timer. */
  lemma {:induction false} LowForm(t: Timer, k: nat, n: nat)
    requires LowRuns(t) && t.tim12 == 0
    ensures LowIs(t, Clocks(t, k, n), n)
  {
    hide *;
    EightCompares(t);
    if n == 0 {
      ClocksNone(t, k);
      LowStart(t, Clocks(t, k, 0));
    } else {
      LowForm(t, k, n - 1);
      RunsOn(t, k, n);
      LowOn(t, Clocks(t, k, n - 1), Clocks(t, k, n), n - 1);
    }
  }

  lemma LowStart(t: Timer, r: Run)
    requires LowRuns(t) && t.tim12 == 0 && r == Run(t, 0, 0, 0)
    ensures LowIs(t, r, 0)
  {
    StartsIn(t.enamode12, t.prd12, t.rel12);
    hide CounterIn, MatchesIn, PeriodIn;
  }

  lemma LowOn(t: Timer, r: Run, next: Run, n: nat)
    requires LowRuns(t) && |r.timer.compare| == 8
    requires LowIs(t, r, n)
    requires OneOn(r, next)
    ensures LowIs(t, next, n + 1)
  {
    var u := r.timer;
    assert t.prd12 < U32 && t.rel12 < U32;
    UnchainedTick(t, u);
    hide CounterIn, MatchesIn, TickOne, Sized, PeriodIn, Advance, Tick12, Tick34, Clocked, SameSetup;
    StepIn(t.enamode12, n, t.prd12, t.rel12);
    StepIn(t.enamode12, n + 1, t.prd12, t.rel12);
    PeriodSmall(t.enamode12, n + 1, t.prd12, t.rel12);
    LowAny(t, u);
  }

  lemma ClocksNone(t: Timer, k: nat)
    requires |t.compare| == 8
    ensures Clocks(t, k, 0) == Run(t, 0, 0, 0) && SameSetup(t, t)
  {
    hide TickOne;
  }

  lemma StartsIn(mode: nat, p: nat, r: nat)
    requires Counts(mode)
    ensures CounterIn(mode, 0, p, r) == 0 && PeriodIn(mode, 0, p, r) == p && MatchesIn(mode, 0, p, r) == 0
  {
    DivUnique(0, p + 1, 0, 0);
  }

  lemma PeriodSmall(mode: nat, n: nat, p: nat, r: nat)
    ensures p < U32 && r < U32 ==> PeriodIn(mode, n, p, r) < U32
    ensures p < U64 && r < U64 ==> PeriodIn(mode, n, p, r) < U64
  {
  }

  lemma LowAny(t: Timer, u: Timer)
    requires LowRuns(t) && SameSetup(t, u)
    requires var c := Advance(u.tim12, u.prd12, t.rel12, t.enamode12); c.counter < U32 && c.period < U32
    ensures var r, c := Tick12(u), Advance(u.tim12, u.prd12, t.rel12, t.enamode12);
            r.timer.tim12 == c.counter && r.timer.prd12 == c.period && r.tint12 == c.matched
  {
    assert Clocked(u, Half12);
    hide Advance, Clocked;
  }

  /** Where the 3:4 half stands after `n` clocks. */
  ghost predicate HighIs(t: Timer, r: Run, n: nat) {
    var q := Divided(n, t.psc + 1);
    && SameSetup(t, r.timer) && r.timer.prescale == Phase(n, t.psc + 1)
    && r.timer.tim34 == CounterIn(t.enamode34, q, t.prd34, t.rel34)
    && r.timer.prd34 == PeriodIn(t.enamode34, q, t.prd34, t.rel34)
    && r.matches34 == MatchesIn(t.enamode34, q, t.prd34, t.rel34)
  }

  /** An unchained timer whose 3:4 half runs from the clock. */
  ghost predicate HighRuns(t: Timer) {
    Sized(t) && t.mode == Unchained && t.run34 && Counts(t.enamode34)
  }

  /** The 3:4 half, behind its prescaler. */
  lemma {:induction false} HighForm(t: Timer, k: nat, n: nat)
    requires HighRuns(t) && t.tim34 == 0 && t.prescale == 0
    ensures HighIs(t, Clocks(t, k, n), n)
  {
    hide *;
    EightCompares(t);
    if n == 0 {
      ClocksNone(t, k);
      HighStart(t, Clocks(t, k, 0));
    } else {
      HighForm(t, k, n - 1);
      RunsOn(t, k, n);
      HighOn(t, Clocks(t, k, n - 1), Clocks(t, k, n), n - 1);
    }
  }

  lemma HighStart(t: Timer, r: Run)
    requires HighRuns(t) && t.tim34 == 0 && t.prescale == 0 && r == Run(t, 0, 0, 0)
    ensures HighIs(t, r, 0)
  {
    StartsIn(t.enamode34, t.prd34, t.rel34);
    DividesFromZero(t.psc + 1);
    hide CounterIn, MatchesIn, PeriodIn, Divided, Phase;
  }

  lemma HighOn(t: Timer, r: Run, next: Run, n: nat)
    requires HighRuns(t) && |r.timer.compare| == 8
    requires HighIs(t, r, n)
    requires OneOn(r, next)
    ensures HighIs(t, next, n + 1)
  {
    hide CounterIn, MatchesIn, Divided, Phase, TickOne, PeriodIn, Advance, Tick12, Tick34, Clocked, SameSetup, HighRuns, Sized;
    var u, q := r.timer, Divided(n, t.psc + 1);
    HighFits(t, u);
    NextDivided(n, t.psc + 1);
    if Phase(n, t.psc + 1) == t.psc {
      StepIn(t.enamode34, q, t.prd34, t.rel34);
      StepIn(t.enamode34, q + 1, t.prd34, t.rel34);
      PeriodSmall(t.enamode34, q + 1, t.prd34, t.rel34);
      HighCounts(t, u);
    } else {
      HighWaits(t, u);
    }
  }

  lemma HighFits(t: Timer, u: Timer)
    requires HighRuns(t) && SameSetup(t, u)
    ensures t.prd34 < U32 && t.rel34 < U32 && Counts(t.enamode34) && |u.compare| == 8
    ensures var r := TickOne(u);
            && SameSetup(t, r.timer) && r.tint34 == Tick34(u).tint34 && r.timer.tim34 == Tick34(u).timer.tim34
            && r.timer.prd34 == Tick34(u).timer.prd34 && r.timer.prescale == Tick34(u).timer.prescale
  {
    hide TickOne, Tick34;
    UnchainedTick(t, u);
  }

  lemma HighCounts(t: Timer, u: Timer)
    requires HighRuns(t) && SameSetup(t, u) && u.prescale == t.psc
    requires var c := Advance(u.tim34, u.prd34, t.rel34, t.enamode34); c.counter < U32 && c.period < U32
    ensures var r, c := Tick34(u), Advance(u.tim34, u.prd34, t.rel34, t.enamode34);
            r.timer.prescale == 0 && r.timer.tim34 == c.counter && r.timer.prd34 == c.period && r.tint34 == c.matched
  {
    assert Clocked(u, Half34);
    hide Advance, Clocked;
  }

  lemma HighWaits(t: Timer, u: Timer)
    requires HighRuns(t) && SameSetup(t, u) && u.prescale < t.psc
    ensures var r := Tick34(u);
            r.timer.prescale == u.prescale + 1 && r.timer.tim34 == u.tim34 && r.timer.prd34 == u.prd34 && !r.tint34
  {
    assert Clocked(u, Half34);
    hide Advance, Clocked;
  }

  /** A timer whose halves run as one from the internal clock: the 1:2 half's gate and clock source are the whole timer's. */
  ghost predicate AllRun(t: Timer) { Sized(t) && t.run12 && t.run34 && !t.gated12 && !t.external12 && Counts(t.enamode12) }

  /** What stands still: a half that is not run, or not clocked, or disabled, and a watchdog. */
  lemma StandsStill(t: Timer)
    requires Sized(t)
    ensures var r := TickOne(t);
            var low := !t.run12 || t.gated12 || t.external12 || t.enamode12 == 0;
            && (t.mode == Watchdog || (t.mode != Unchained && (low || !t.run34)) ==> r == Ticked(t, false, false, {}))
            && (t.mode == Unchained && low ==>
                  r.timer.tim12 == t.tim12 && r.timer.prd12 == t.prd12 && !r.tint12 && r.compares == {})
            && (t.mode == Unchained && (!t.run34 || t.enamode34 == 0) ==>
                  r.timer.tim34 == t.tim34 && r.timer.prd34 == t.prd34 && r.timer.prescale == t.prescale && !r.tint34)
  {
    if t.mode == Unchained {
      assert SameSetup(t, t);
      UnchainedTick(t, t);
      HalvesStand(t);
      hide TickOne, Tick12, Tick34, SameSetup, Sized;
    } else {
      hide Advance;
    }
  }

  lemma HalvesStand(t: Timer)
    requires Sized(t) && t.mode == Unchained
    ensures !t.run12 || t.gated12 || t.external12 || t.enamode12 == 0 ==>
              var a := Tick12(t); a.timer.tim12 == t.tim12 && a.timer.prd12 == t.prd12 && !a.tint12 && a.compares == {}
    ensures !t.run34 || t.enamode34 == 0 ==>
              var b := Tick34(t); b.timer.tim34 == t.tim34 && b.timer.prd34 == t.prd34 && b.timer.prescale == t.prescale && !b.tint34
  {
    hide Compares;
  }

  /** The timer as one 64-bit counter holding `v` with period `p`. */
  function Whole64(t: Timer, v: nat, p: nat): Timer { t.(tim12 := v % U32, tim34 := v / U32, prd12 := p % U32, prd34 := p / U32) }

  /** Where a 64-bit timer stands after `n` clocks. */
  ghost predicate Is64(t: Timer, r: Run, n: nat) {
    var p, rel := Joined(t.prd34, t.prd12), Joined(t.rel34, t.rel12);
    && r.timer == Whole64(t, CounterIn(t.enamode12, n, p, rel), PeriodIn(t.enamode12, n, p, rel))
    && r.matches12 == MatchesIn(t.enamode12, n, p, rel) && r.matches34 == 0
  }

  /** The two halves as one 64-bit counter. */
  lemma {:induction false} Form64(t: Timer, k: nat, n: nat)
    requires t.mode == Gp64 && AllRun(t) && t.tim12 == 0 && t.tim34 == 0
    ensures Is64(t, Clocks(t, k, n), n)
  {
    hide *;
    AllHas(t);
    if n == 0 {
      ClocksNone(t, k);
      Start64(t, Clocks(t, k, 0));
    } else {
      Form64(t, k, n - 1);
      RunsOn(t, k, n);
      On64(t, Clocks(t, k, n - 1), Clocks(t, k, n), n - 1);
    }
  }

  lemma AllHas(t: Timer)
    requires AllRun(t)
    ensures |t.compare| == 8 && WholeRuns(t) && Sized(t) && Counts(t.enamode12)
    ensures Joined(t.prd34, t.prd12) < U64 && Joined(t.rel34, t.rel12) < U64
  {
    JoinedSplits(t.prd34, t.prd12);
    JoinedSplits(t.rel34, t.rel12);
    hide Joined;
  }

  lemma Start64(t: Timer, r: Run)
    requires t.mode == Gp64 && AllRun(t) && t.tim12 == 0 && t.tim34 == 0 && r == Run(t, 0, 0, 0)
    ensures Is64(t, r, 0)
  {
    JoinedSplits(t.prd34, t.prd12);
    StartsIn(t.enamode12, Joined(t.prd34, t.prd12), Joined(t.rel34, t.rel12));
    hide CounterIn, MatchesIn, PeriodIn, Joined;
  }

  lemma On64(t: Timer, r: Run, next: Run, n: nat)
    requires t.mode == Gp64 && AllRun(t) && |r.timer.compare| == 8 && Is64(t, r, n) && OneOn(r, next)
    ensures Is64(t, next, n + 1)
  {
    hide CounterIn, MatchesIn, PeriodIn, Joined, TickOne, Advance, Whole64, AllRun, WholeRuns, Counts, Sized;
    AllHas(t);
    var mode, p, rel := t.enamode12, Joined(t.prd34, t.prd12), Joined(t.rel34, t.rel12);
    StepIn(mode, n, p, rel);
    StepIn(mode, n + 1, p, rel);
    PeriodSmall(mode, n, p, rel);
    PeriodSmall(mode, n + 1, p, rel);
    Any64(t, CounterIn(mode, n, p, rel), PeriodIn(mode, n, p, rel));
  }

  lemma Any64(t: Timer, v: nat, p: nat)
    requires Sized(t) && t.mode == Gp64 && WholeRuns(t) && v < U64 && p < U64
    requires var c := Advance(v, p, Joined(t.rel34, t.rel12), t.enamode12); c.counter < U64 && c.period < U64
    ensures var r, c := TickOne(Whole64(t, v, p)), Advance(v, p, Joined(t.rel34, t.rel12), t.enamode12);
            r.timer == Whole64(t, c.counter, c.period) && r.tint12 == c.matched && !r.tint34
  {
    hide *;
    var u, c := Whole64(t, v, p), Advance(v, p, Joined(t.rel34, t.rel12), t.enamode12);
    SplitJoined(v);
    SplitJoined(p);
    Whole64Parts(t, v, p);
    TickWhole(u);
    TickedWhole(t, v, p, c.counter, c.period);
    Inside64(c.counter);
  }

  lemma Inside64(v: nat)
    requires v < U64
    ensures v % U64 == v
  {
  }

  lemma TickWhole(u: Timer)
    requires |u.compare| == 8 && u.mode == Gp64 && WholeRuns(u)
    ensures var r := TickOne(u);
            var c := Advance(Joined(u.tim34, u.tim12), Joined(u.prd34, u.prd12), Joined(u.rel34, u.rel12), u.enamode12);
            && r.timer == Whole64(u, c.counter % U64, c.period) && r.tint12 == c.matched && !r.tint34
  {
    hide Advance, WholeRuns, Clocked, Joined;
  }

  lemma TickedWhole(t: Timer, v: nat, p: nat, w: nat, q: nat)
    ensures Whole64(Whole64(t, v, p), w, q) == Whole64(t, w, q)
  {
  }

  lemma Whole64Parts(t: Timer, v: nat, p: nat)
    requires Sized(t) && t.mode == Gp64 && WholeRuns(t) && v < U64 && p < U64
    ensures var u := Whole64(t, v, p);
            && |u.compare| == 8 && WholeRuns(u) && u.mode == Gp64 && u.enamode12 == t.enamode12
            && u.tim34 == v / U32 && u.tim12 == v % U32 && u.prd34 == p / U32 && u.prd12 == p % U32
            && u.rel34 == t.rel34 && u.rel12 == t.rel12
  {
  }

  // ------------------------------------------------------------ chained modes

  /** The chained timer with counters `d` and `x` and periods `high` and `low`. */
  function Pair(t: Timer, d: nat, x: nat, high: nat, low: nat): Timer { t.(tim34 := d, tim12 := x, prd34 := high, prd12 := low) }

  /** One clock of a chained timer before the 3:4 half comes round. */
  lemma ChainedDivides(t: Timer, d: nat, x: nat, high: nat, low: nat)
    requires Sized(t) && t.mode == Chained && WholeRuns(t) && d < high < U32
    ensures var r := TickOne(Pair(t, d, x, high, low)); r.timer == Pair(t, d + 1, x, high, low) && !r.tint12 && !r.tint34
  {
    assert WholeRuns(Pair(t, d, x, high, low));
    hide Advance, WholeRuns, Clocked;
  }

  /** When it does, the 1:2 half counts; and the 3:4 half reloads when that does. */
  lemma ChainedCounts(t: Timer, x: nat, high: nat, low: nat)
    requires Sized(t) && t.mode == Chained && WholeRuns(t) && high < U32
    requires var c := Advance(x, low, t.rel12, t.enamode12); c.counter < U32 && c.period < U32
    ensures var r, c := TickOne(Pair(t, high, x, high, low)), Advance(x, low, t.rel12, t.enamode12);
            && !r.tint34 && r.tint12 == c.matched
            && r.timer == Pair(t, 0, c.counter, if t.enamode12 == 3 && low != 0 && x == low then t.rel34 else high, c.period)
  {
    assert WholeRuns(Pair(t, high, x, high, low));
    hide Advance, WholeRuns, Clocked;
  }

  ghost predicate ChainedRuns(t: Timer) { t.mode == Chained && AllRun(t) }

  /** Where a chained timer stands after `n` clocks, up to the first reload. */
  ghost predicate ChainedIs(t: Timer, r: Run, n: nat) {
    var q := Divided(n, t.prd34 + 1);
    && r.timer == Pair(t, Phase(n, t.prd34 + 1), CounterIn(t.enamode12, q, t.prd12, t.rel12), t.prd34, t.prd12)
    && r.matches12 == MatchesIn(t.enamode12, q, t.prd12, t.rel12) && r.matches34 == 0
  }

  predicate BeforeReload(t: Timer, n: nat) { t.enamode12 == 3 && t.prd12 > 0 ==> Divided(n, t.prd34 + 1) <= t.prd12 }

  /** Until the first match's reload, in any mode: TIM34 divides by PRD34 + 1 and TIM12 counts what comes out. */
  lemma {:induction false} ChainedFirst(t: Timer, k: nat, n: nat)
    requires ChainedRuns(t) && t.tim12 == 0 && t.tim34 == 0 && BeforeReload(t, n)
    ensures ChainedIs(t, Clocks(t, k, n), n)
  {
    hide *;
    EightCompares(t);
    if n == 0 {
      ClocksNone(t, k);
      ChainedStart(t, Clocks(t, k, 0));
    } else {
      EarlierReload(t, n);
      ChainedFirst(t, k, n - 1);
      RunsOn(t, k, n);
      ChainedOn(t, Clocks(t, k, n - 1), Clocks(t, k, n), n - 1);
    }
  }

  lemma ChainedStart(t: Timer, r: Run)
    requires ChainedRuns(t) && t.tim12 == 0 && t.tim34 == 0 && r == Run(t, 0, 0, 0)
    ensures ChainedIs(t, r, 0)
  {
    StartsIn(t.enamode12, t.prd12, t.rel12);
    DividesFromZero(t.prd34 + 1);
    PairItself(t);
    hide CounterIn, MatchesIn, Divided, Phase, Pair;
  }

  lemma EarlierReload(t: Timer, n: nat)
    requires n > 0 && BeforeReload(t, n)
    ensures BeforeReload(t, n - 1)
  {
    NextDivided(n - 1, t.prd34 + 1);
    hide Divided, Phase;
  }

  lemma ChainedOn(t: Timer, r: Run, next: Run, n: nat)
    requires ChainedRuns(t) && |r.timer.compare| == 8
    requires ChainedIs(t, r, n) && BeforeReload(t, n + 1)
    requires OneOn(r, next)
    ensures ChainedIs(t, next, n + 1)
  {
    var w, q := t.prd34 + 1, Divided(n, t.prd34 + 1);
    EarlierReload(t, n + 1);
    NextDivided(n, w);
    assert t.prd12 < U32 && t.rel12 < U32 && t.prd34 < U32;
    FirstPeriod(t.enamode12, q, t.prd12, t.rel12);
    hide CounterIn, MatchesIn, Divided, Phase, Pair, TickOne, Sized, WholeRuns, PeriodIn, Advance;
    if Phase(n, w) == t.prd34 {
      StepIn(t.enamode12, q, t.prd12, t.rel12);
      StepIn(t.enamode12, q + 1, t.prd12, t.rel12);
      FirstPeriod(t.enamode12, q + 1, t.prd12, t.rel12);
      NotReloaded(t.enamode12, q, t.prd12, t.rel12);
      ChainedCounts(t, CounterIn(t.enamode12, q, t.prd12, t.rel12), t.prd34, t.prd12);
    } else {
      ChainedDivides(t, Phase(n, w), CounterIn(t.enamode12, q, t.prd12, t.rel12), t.prd34, t.prd12);
    }
  }

  lemma PairItself(t: Timer)
    requires t.tim12 == 0 && t.tim34 == 0
    ensures Pair(t, 0, 0, t.prd34, t.prd12) == t
  {
  }

  lemma FirstPeriod(mode: nat, q: nat, p: nat, r: nat)
    requires mode == 3 && p > 0 ==> q <= p
    ensures PeriodIn(mode, q, p, r) == p
  {
  }

  lemma NotReloaded(mode: nat, q: nat, p: nat, r: nat)
    ensures mode == 3 && 0 < p && q < p ==> CounterIn(mode, q, p, r) != p
  {
  }

  lemma {:induction false} ClocksJoin(t: Timer, k: nat, m: nat, n: nat)
    requires |t.compare| == 8
    ensures var a := Clocks(t, k, m);
            var b := Clocks(a.timer, k, n);
            Clocks(t, k, m + n) == Run(b.timer, a.matches12 + b.matches12, a.matches34 + b.matches34, a.hits + b.hits)
    decreases n
  {
    hide *;
    EightStill(t, k, m);
    if n > 0 {
      ClocksJoin(t, k, m, n - 1);
      EightStill(t, k, m + n - 1);
      EightStill(Clocks(t, k, m).timer, k, n - 1);
      ClocksOne(t, k, m + n);
      ClocksOne(Clocks(t, k, m).timer, k, n);
    } else {
      NoClock(Clocks(t, k, m).timer, k);
    }
  }

  lemma EightStill(t: Timer, k: nat, n: nat)
    requires |t.compare| == 8
    ensures |Clocks(t, k, n).timer.compare| == 8
  {
  }

  lemma NoClock(t: Timer, k: nat)
    requires |t.compare| == 8
    ensures Clocks(t, k, 0) == Run(t, 0, 0, 0)
  {
  }

  /** Chained with reload: at the end of the first round both halves take their reload values, and begin again from zero. */
  lemma ChainedReloads(t: Timer, k: nat)
    requires ChainedRuns(t) && t.enamode12 == 3 && t.tim12 == 0 && t.tim34 == 0 && t.prd12 > 0
    ensures var r := Clocks(t, k, (t.prd12 + 1) * (t.prd34 + 1));
            r.timer == Pair(t, 0, 0, t.rel34, t.rel12) && r.matches12 == 1 && r.matches34 == 0
  {
    var w, n := t.prd34 + 1, (t.prd12 + 1) * (t.prd34 + 1);
    assert t.prd12 < U32 && t.rel12 < U32 && t.prd34 < U32 && |t.compare| == 8;
    LastOfRound(t.prd12, t.prd34);
    assert BeforeReload(t, n - 1);
    ChainedFirst(t, k, n - 1);
    assert Clocks(t, k, n - 1).timer == Pair(t, t.prd34, CounterIn(3, t.prd12, t.prd12, t.rel12), t.prd34, t.prd12);
    assert Clocks(t, k, n - 1).matches12 == MatchesIn(3, t.prd12, t.prd12, t.rel12) && Clocks(t, k, n - 1).matches34 == 0;
    hide *;
    ClocksOne(t, k, n);
    StepIn(3, t.prd12, t.prd12, t.rel12);
    AtPeriod(t.prd12, t.rel12);
    ChainedCounts(t, t.prd12, t.prd34, t.prd12);
  }

  lemma LastOfRound(low: nat, high: nat)
    ensures (low + 1) * (high + 1) > 0
    ensures Divided((low + 1) * (high + 1) - 1, high + 1) == low && Phase((low + 1) * (high + 1) - 1, high + 1) == high
  {
    assert (low + 1) * (high + 1) == low * (high + 1) + high + 1;
    Multiple(low, high + 1);
    DivUnique((low + 1) * (high + 1) - 1, high + 1, low, high);
  }

  lemma AtPeriod(p: nat, r: nat)
    requires p > 0
    ensures CounterIn(3, p, p, r) == p && MatchesIn(3, p, p, r) == 1 && PeriodIn(3, p, p, r) == p
    ensures CounterIn(3, p + 1, p, r) == 0 && PeriodIn(3, p + 1, p, r) == r && MatchesIn(3, p + 1, p, r) == 1
  {
    DivUnique(0, r + 1, 0, 0);
    DivUnique(1, r + 1, if r == 0 then 1 else 0, if r == 0 then 0 else 1);
  }
}
