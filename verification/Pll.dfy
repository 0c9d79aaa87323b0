/**
 The C6747's PLL controller: how long the PLL takes to lock, the fraction each clock runs
 at, and the input clock counted one DSP cycle at a time with an exact remainder (SPRS377F
 Table 6-4; SPRUH91D chapter 7).

 The remainder is what makes the count exact over any number of cycles: after n of them the
 input cycles counted are n times the reported fraction, rounded down (`CyclesExact`,
 `CyclesAreSysclk`).
 */
module Pll {
  import opened Common

  const OSCIN: nat := 16_934_400
  const RESET_PERIODS: nat := 17
  const GO_TICKS: nat := 8

  /** A divider register: enabled, and its ratio field. */
  datatype Divider = Divider(enabled: bool, field: nat)

  function Ratio(d: Divider): (r: nat)
    ensures r >= 1
  {
    if d.enabled then d.field + 1 else 1
  }

  datatype Pll = Pll(
    pllen: bool, powered: bool, multiplier: nat, prediv: Divider, postdiv: Divider,
    active: seq<Divider>, target: seq<Divider>,
    phase: nat, cycles: nat, resetAge: nat, lockLeft: nat, goLeft: nat)

  predicate Sized(s: Pll) {
    |s.active| == |s.target| == 7 && s.multiplier >= 1 && s.resetAge <= RESET_PERIODS && s.goLeft <= GO_TICKS
  }

  // ------------------------------------------------------------------ locking

  /** `w` periods are enough for a lock at pre-divider `n` and multiplier `m`. */
  predicate Enough(n: nat, m: nat, w: nat) { w * w * m >= 2000 * n * (2000 * n) }

  /** The least number of OSCIN periods that is at least 2000 N / sqrt(M), without a square root. */
  method LockWait(n: nat, m: nat) returns (wait: nat)
    requires m >= 1
    ensures Enough(n, m, wait) && forall v: nat | v < wait :: !Enough(n, m, v)
    ensures wait <= 2000 * n
  {
    wait := 0;
    var square := 4000000 * n * n;
    assert square == 2000 * n * (2000 * n);
    EnoughAtMost(n, m);
    while wait * wait * m < square
      invariant wait <= 2000 * n
      invariant forall v: nat | v < wait :: !Enough(n, m, v)
      decreases 2000 * n - wait
    {
      assert !Enough(n, m, wait);
      wait := wait + 1;
    }
  }

  lemma EnoughAtMost(n: nat, m: nat)
    requires m >= 1
    ensures Enough(n, m, 2000 * n)
  {
    var w := 2000 * n;
    assert w * w * m >= w * w by {
      Multiple(m - 1, w * w + 1);
      assert w * w * m == w * w + w * w * (m - 1);
      assert w * w * (m - 1) >= 0;
    }
  }

  /** More waiting is never too little, so the least wait is the bound the datasheet asks for. */
  lemma EnoughGrows(n: nat, m: nat, w: nat, v: nat)
    requires Enough(n, m, w) && w <= v
    ensures Enough(n, m, v)
  {
    assert v * v >= w * w by {
      assert v * v - w * w == (v - w) * (v + w);
    }
    assert (v * v - w * w) * m >= 0;
    assert v * v * m == w * w * m + (v * v - w * w) * m;
  }

  // ----------------------------------------------------------------- counting

  /** The frequency of SYSCLKn as a fraction, refused while a divider in its path is disabled. */
  function Sysclk(s: Pll, n: nat): Option<(nat, nat)>
    requires |s.active| == 7
  {
    if n < 1 || n > 7 || !s.active[n - 1].enabled then None
    else if !s.pllen then Some((OSCIN, Ratio(s.active[n - 1])))
    else if !s.prediv.enabled || !s.postdiv.enabled then None
    else Some((OSCIN * s.multiplier, Ratio(s.prediv) * Ratio(s.postdiv) * Ratio(s.active[n - 1])))
  }

  /** Input periods one DSP cycle takes, as a fraction in PLL mode. */
  function Numerator(s: Pll): nat
    requires |s.active| == 7
  {
    Ratio(s.prediv) * Ratio(s.postdiv) * Ratio(s.active[0])
  }

  function Elapsed(s: Pll): nat
    requires Sized(s)
  {
    if s.pllen then (s.phase + Numerator(s)) / s.multiplier else Ratio(s.active[0])
  }

  function NextPhase(s: Pll): (r: nat)
    requires Sized(s)
  {
    if s.pllen then (s.phase + Numerator(s)) % s.multiplier else 0
  }

  /** One DSP cycle. */
  function Tick(s: Pll): (r: Pll)
    requires Sized(s)
    ensures Sized(r)
  {
    var elapsed := Elapsed(s);
    s.(phase := NextPhase(s),
       cycles := s.cycles + elapsed,
       resetAge := if s.powered then Min(s.resetAge + elapsed, RESET_PERIODS) else s.resetAge,
       lockLeft := Max(s.lockLeft - elapsed, 0),
       goLeft := Max(s.goLeft - 1, 0),
       active := if s.goLeft == 1 then s.target else s.active)
  }

  function Ticks(s: Pll, n: nat): (r: Pll)
    requires Sized(s)
    ensures Sized(r)
  {
    if n == 0 then s else Tick(Ticks(s, n - 1))
  }

  /** Nothing that steers the clock changes while no divider change is under way. */
  lemma {:induction false} TicksKeep(s: Pll, n: nat)
    requires Sized(s) && s.goLeft == 0
    ensures var r := Ticks(s, n);
            r == s.(phase := r.phase, cycles := r.cycles, resetAge := r.resetAge, lockLeft := r.lockLeft)
  {
    if n > 0 {
      TicksKeep(s, n - 1);
      hide Elapsed, Numerator;
    }
  }

  lemma Carry(q: nat, r: nat, p: nat, m: nat)
    requires m > 0 && r < m
    ensures (q * m + r + p) / m == q + (r + p) / m && (q * m + r + p) % m == (r + p) % m
  {
    var a, b := (r + p) / m, (r + p) % m;
    assert r + p == a * m + b && (q + a) * m == q * m + a * m;
    DivUnique(q * m + r + p, m, q + a, b);
  }

  /** The whole input periods in `n` cycles of `p`/`m` periods each, and what is left over. */
  function Whole(n: nat, p: nat, m: nat): nat requires m > 0 { n * p / m }
  function Left(n: nat, p: nat, m: nat): nat requires m > 0 { n * p % m }

  /** The same for one cycle, begun with `f` left over. */
  function WholeOne(f: nat, p: nat, m: nat): nat requires m > 0 { (f + p) / m }
  function LeftOne(f: nat, p: nat, m: nat): nat requires m > 0 { (f + p) % m }

  lemma NextWhole(n: nat, p: nat, m: nat)
    requires m > 0
    ensures Whole(n + 1, p, m) == Whole(n, p, m) + WholeOne(Left(n, p, m), p, m)
    ensures Left(n + 1, p, m) == LeftOne(Left(n, p, m), p, m)
    ensures Whole(0, p, m) == 0 && Left(0, p, m) == 0
  {
    var q, f := n * p / m, n * p % m;
    assert n * p == q * m + f && (n + 1) * p == n * p + p;
    Carry(q, f, p, m);
    assert 0 * p == 0;
    DivUnique(0, m, 0, 0);
  }

  /**
   In PLL mode with fixed dividers, `n` cycles from phase 0 count exactly the whole input
   periods they take: no fraction is ever lost, and the lock and reset counters see the same.
   */
  lemma {:induction false} CyclesExact(s: Pll, n: nat)
    requires Sized(s) && s.goLeft == 0 && s.pllen && s.phase == 0
    ensures var r, whole := Ticks(s, n), Whole(n, Numerator(s), s.multiplier);
            && r.cycles == s.cycles + whole && r.phase == Left(n, Numerator(s), s.multiplier)
            && r.lockLeft == Max(s.lockLeft - whole, 0)
            && r.resetAge == if s.powered then Min(s.resetAge + whole, RESET_PERIODS) else s.resetAge
  {
    var m, p := s.multiplier, Numerator(s);
    assert Ticks(s, 0) == s && s.resetAge <= RESET_PERIODS && m > 0;
    hide *;
    if n == 0 {
      NextWhole(0, p, m);
      KeepsNone(s.lockLeft, s.resetAge);
    } else {
      CyclesExact(s, n - 1);
      TicksKeep(s, n - 1);
      TickInFull(s, n);
      NextWhole(n - 1, p, m);
      KeepsAdd(s.lockLeft, s.resetAge, Whole(n - 1, p, m), WholeOne(Left(n - 1, p, m), p, m));
    }
  }

  /** One more cycle at full speed, in figures. */
  lemma TickInFull(s: Pll, n: nat)
    requires Sized(s) && s.goLeft == 0 && s.pllen && n > 0
    requires var b := Ticks(s, n - 1);
             b == s.(phase := b.phase, cycles := b.cycles, resetAge := b.resetAge, lockLeft := b.lockLeft)
    ensures var b, r, m, p := Ticks(s, n - 1), Ticks(s, n), s.multiplier, Numerator(s);
            m > 0 && var elapsed := WholeOne(b.phase, p, m);
            && r.cycles == b.cycles + elapsed && r.phase == LeftOne(b.phase, p, m)
            && r.lockLeft == Max(b.lockLeft - elapsed, 0)
            && r.resetAge == if s.powered then Min(b.resetAge + elapsed, RESET_PERIODS) else b.resetAge
  {
    var b := Ticks(s, n - 1);
    assert Ticks(s, n) == Tick(b) && Numerator(b) == Numerator(s);
    hide Ticks, Numerator, Min, Max;
  }

  lemma KeepsNone(lock: nat, age: nat)
    ensures Max(lock - 0, 0) == lock && (age <= RESET_PERIODS ==> Min(age + 0, RESET_PERIODS) == age)
  {
  }

  lemma KeepsAdd(lock: nat, age: nat, a: nat, b: nat)
    ensures Max(Max(lock - a, 0) - b, 0) == Max(lock - (a + b), 0)
    ensures Min(Min(age + a, RESET_PERIODS) + b, RESET_PERIODS) == Min(age + (a + b), RESET_PERIODS)
  {
  }

  /** And that count is the number of cycles times OSCIN over the reported SYSCLK1, rounded down. */
  lemma CyclesAreSysclk(s: Pll, n: nat)
    requires Sized(s) && s.goLeft == 0 && s.pllen && s.phase == 0 && Sysclk(s, 1).Some?
    ensures var hz := Sysclk(s, 1).value;
            hz.0 > 0 && Ticks(s, n).cycles == s.cycles + n * OSCIN * hz.1 / hz.0
  {
    CyclesExact(s, n);
    var p, m := Numerator(s), s.multiplier;
    assert Sysclk(s, 1).value == (OSCIN * m, p);
    hide Numerator, Sysclk, Ticks, Elapsed;
    Cancel(n * p, m, OSCIN);
    Regroup(n, p);
  }

  lemma Regroup(n: nat, p: nat)
    ensures n * OSCIN * p == n * p * OSCIN
  {
    assert n * OSCIN * p == n * (OSCIN * p) == n * (p * OSCIN);
  }

  lemma Cancel(x: nat, m: nat, c: nat)
    requires m > 0 && c > 0
    ensures m * c > 0 && x * c / (m * c) == x / m
  {
    var q, r := x / m, x % m;
    assert x == q * m + r && r < m;
    Scaled(q, m, r, c);
    DivUnique(x * c, m * c, q, r * c);
  }

  lemma Scaled(q: nat, m: nat, r: nat, c: nat)
    requires r < m && c > 0
    ensures (q * m + r) * c == q * (m * c) + r * c && r * c < m * c
  {
    Multiple(m - r, c);
    assert (m - r) * c == m * c - r * c;
    assert (q * m + r) * c == q * m * c + r * c;
    assert q * m * c == q * (m * c);
  }

  /** In bypass each cycle takes the divider's ratio of input periods. */
  lemma {:induction false} BypassExact(s: Pll, n: nat)
    requires Sized(s) && s.goLeft == 0 && !s.pllen
    ensures Ticks(s, n).cycles == s.cycles + n * Ratio(s.active[0])
  {
    hide Ratio, Numerator;
    if n > 0 {
      BypassExact(s, n - 1);
      TicksKeep(s, n - 1);
      OneTurn(n, Ratio(s.active[0]));
      hide Ticks;
    }
  }

  lemma OneTurn(n: nat, ratio: nat)
    requires n > 0
    ensures n * ratio == (n - 1) * ratio + ratio
  {
  }

  /** New dividers take effect together, on the eighth cycle after GO. */
  lemma {:induction false} GoTakesEight(s: Pll, n: nat)
    requires Sized(s) && s.goLeft == GO_TICKS
    ensures Ticks(s, n).active == if n < GO_TICKS then s.active else s.target
    ensures Ticks(s, n).goLeft == Max(GO_TICKS - n, 0) && Ticks(s, n).target == s.target
  {
    if n > 0 {
      GoTakesEight(s, n - 1);
      hide Elapsed, Numerator;
    }
  }

  // --------------------------------------------------------- the PLL in place

  class Machine {
    var regs: Pll

    /** The input periods this cycle takes, the remainder kept for the next. */
    method Measure() returns (elapsed: nat)
      requires Sized(regs)
      modifies this
      ensures elapsed == Elapsed(old(regs)) && regs == old(regs).(phase := NextPhase(old(regs)))
    {
      hide Numerator;
      if regs.pllen {
        var phase := regs.phase + Numerator(regs);
        elapsed := phase / regs.multiplier;
        regs := regs.(phase := phase % regs.multiplier);
      } else {
        elapsed := Ratio(regs.active[0]);
        regs := regs.(phase := 0);
      }
    }

    /** One DSP cycle into the counters. */
    method Clock()
      requires Sized(regs)
      modifies this
      ensures regs == Tick(old(regs))
    {
      hide Elapsed, NextPhase;
      var elapsed := Measure();
      regs := regs.(cycles := regs.cycles + elapsed);
      if regs.powered && regs.resetAge < RESET_PERIODS {
        regs := regs.(resetAge := regs.resetAge + elapsed);
        if regs.resetAge > RESET_PERIODS {
          regs := regs.(resetAge := RESET_PERIODS);
        }
      }
      if regs.lockLeft != 0 {
        regs := regs.(lockLeft := if regs.lockLeft > elapsed then regs.lockLeft - elapsed else 0);
      }
      if regs.goLeft != 0 {
        regs := regs.(goLeft := regs.goLeft - 1);
        if regs.goLeft == 0 {
          regs := regs.(active := regs.target);
        }
      }
    }
  }
}
