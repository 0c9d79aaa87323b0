/**
 The copy loop of the SH4 DMA controller over plain memory.  Incrementing transfers are
 copied in chunks of 4096 bytes through a buffer, every other mode one unit at a time.
 Memory is total over integer addresses.
 */
module DmaCopy {
  import opened Common

  type Memory = int -> Byte

  const CHUNK: nat := 4096
  const U32: nat := 0x1_0000_0000

  /** Address modes: 0 fixed, 1 increment, 2 decrement, 3 treated as fixed. */
  datatype Setup = Setup(unit: nat, sourceMode: nat, destinationMode: nat)

  /** Both unit sizes divide a chunk. */
  predicate Legal(u: Setup) { u.unit == 16 || u.unit == 4 }

  function Stride(mode: nat): int { if mode == 1 then 1 else if mode == 2 then -1 else 0 }

  /** Read `n` bytes, then write them. */
  function Move(m: Memory, s: int, d: int, n: nat): Memory {
    (a: int) => if d <= a < d + n then m(s + (a - d)) else m(a)
  }

  ghost predicate Same(m: Memory, m': Memory) { forall a :: m(a) == m'(a) }

  /** One unit after another, each read before it is written. */
  function UnitCopy(u: Setup, m: Memory, s: int, d: int, k: nat): Memory {
    if k == 0 then m
    else
      var done := (k - 1) * u.unit;
      Move(UnitCopy(u, m, s, d, k - 1), s + Stride(u.sourceMode) * done, d + Stride(u.destinationMode) * done, u.unit)
  }

  /** An incrementing copy of `n` bytes in blocks of `block`. */
  function Blocks(m: Memory, s: int, d: int, block: nat, n: nat): Memory
    requires block > 0
    decreases n
  {
    if n == 0 then m
    else
      var start := (n - 1) / block * block;
      BlockStart(n, block);
      Move(Blocks(m, s, d, block, start), s + start, d + start, n - start)
  }

  lemma BlockStart(n: nat, block: nat)
    requires 0 < n && 0 < block
    ensures 0 <= (n - 1) / block * block < n <= (n - 1) / block * block + block
  {
    var q, r := (n - 1) / block, (n - 1) % block;
    assert n - 1 == q * block + r;
  }

  // ----------------------------------------------------------- closed form

  /** The byte an incrementing copy in blocks leaves at offset `o`: its source byte, unless an earlier block overwrote that. */
  function Landed(m: Memory, s: int, d: int, block: nat, o: nat): Byte
    requires block > 0
    decreases o
  {
    var start := o / block * block;
    assert start <= o by { BlockStart(o + 1, block); }
    if 0 <= o - (d - s) < start then Landed(m, s, d, block, o - (d - s)) else m(s + o)
  }

  lemma {:induction false} BlocksLand(m: Memory, s: int, d: int, block: nat, n: nat)
    requires block > 0
    ensures forall a :: Blocks(m, s, d, block, n)(a) == if d <= a < d + n then Landed(m, s, d, block, a - d) else m(a)
    decreases n
  {
    if n > 0 {
      var start := (n - 1) / block * block;
      BlockStart(n, block);
      BlocksLand(m, s, d, block, start);
      var r := Blocks(m, s, d, block, n);
      forall a ensures r(a) == if d <= a < d + n then Landed(m, s, d, block, a - d) else m(a) {
        if d + start <= a < d + n {
          SameBlock(n, a - d, block);
          var before := Blocks(m, s, d, block, start);
          var x := s + (a - d);
          assert s + start + (a - (d + start)) == x && r(a) == before(x);
          assert before(x) == if d <= x < d + start then Landed(m, s, d, block, x - d) else m(x);
        }
      }
    }
  }

  lemma SameBlock(n: nat, o: nat, block: nat)
    requires 0 < block && (n - 1) / block * block <= o < n
    ensures o / block * block == (n - 1) / block * block
  {
    BlockStart(n, block);
    var q := (n - 1) / block;
    DivUnique(o, block, q, o - q * block);
  }

  // --------------------------------------------- chunks against single units

  /** How far the chunked copy looks ahead. */
  function Reach(n: nat): nat { if n < CHUNK then n else CHUNK }

  /** The chunk would be read past where its own first unit lands. */
  predicate Hazard(u: Setup, s: int, d: int, n: nat) {
    0 < d - s < Reach(n) && u.unit < Reach(n)
  }

  lemma {:induction false} LandedAgree(m: Memory, s: int, d: int, small: nat, n: nat, o: nat)
    requires 0 < small <= CHUNK && o < n && (d - s <= 0 || d - s >= Reach(n))
    ensures Landed(m, s, d, small, o) == Landed(m, s, d, CHUNK, o)
    decreases o
  {
    BlockStart(o + 1, small);
    BlockStart(o + 1, CHUNK);
    if 0 < d - s <= o {
      assert n >= CHUNK && o - (d - s) < o / small * small && o - (d - s) < o / CHUNK * CHUNK;
      LandedAgree(m, s, d, small, n, o - (d - s));
    }
  }

  /** In the first block nothing has been overwritten yet. */
  lemma FirstBlock(m: Memory, s: int, d: int, block: nat, o: nat)
    requires o < block
    ensures Landed(m, s, d, block, o) == m(s + o)
  {
    DivUnique(o, block, 0, o);
  }

  /** Offset max(unit, d - s) is where copying unit by unit first reads a byte it has already written. */
  lemma LandedDiffer(s: int, d: int, unit: nat, n: nat) returns (m: Memory, o: nat)
    requires 0 < unit && 0 < d - s < Reach(n) && unit < Reach(n)
    ensures o < n && Landed(m, s, d, unit, o) != Landed(m, s, d, CHUNK, o)
  {
    o := if d - s < unit then unit else d - s;
    var at := s + o;
    m := (a: int) => if a == at then 1 else 0;
    FirstBlock(m, s, d, CHUNK, o);
    var back := o - (d - s);
    FirstBlock(m, s, d, unit, back);
    StartsAfter(o, unit);
    hide Landed;
    assert Landed(m, s, d, unit, o) == Landed(m, s, d, unit, back) by {
      LandedStep(m, s, d, unit, o);
    }
  }

  lemma LandedStep(m: Memory, s: int, d: int, block: nat, o: nat)
    requires 0 < block && 0 <= o - (d - s) < o / block * block
    ensures Landed(m, s, d, block, o) == Landed(m, s, d, block, o - (d - s))
  {
  }

  lemma StartsAfter(o: nat, unit: nat)
    requires 0 < unit <= o
    ensures o / unit * unit >= unit
  {
    var q, r := o / unit, o % unit;
    assert o == q * unit + r;
    Multiple(q - 1, unit);
    assert (q - 1) * unit == q * unit - unit;
    if q == 0 {
      assert false;
    }
  }

  // ---------------------------------------------------------- the two copies

  lemma {:induction false} UnitsAreBlocks(u: Setup, m: Memory, s: int, d: int, k: nat)
    requires Legal(u) && u.sourceMode == u.destinationMode == 1
    ensures UnitCopy(u, m, s, d, k) == Blocks(m, s, d, u.unit, k * u.unit)
  {
    assert u.unit > 0 && Stride(1) == 1;
    hide *;
    if k == 0 {
      NothingCopied(u, m, s, d);
      NoBlocks(m, s, d, u.unit);
    } else {
      var n := (k - 1) * u.unit;
      assert k * u.unit == n + u.unit;
      UnitsAreBlocks(u, m, s, d, k - 1);
      UnitsNext(u, m, s, d, k - 1);
      BlocksOne(m, s, d, u.unit, k - 1);
    }
  }

  lemma NoBlocks(m: Memory, s: int, d: int, block: nat)
    requires block > 0
    ensures Blocks(m, s, d, block, 0) == m
  {
  }

  lemma BlocksOne(m: Memory, s: int, d: int, block: nat, k: nat)
    requires block > 0
    ensures Blocks(m, s, d, block, k * block + block) == Move(Blocks(m, s, d, block, k * block), s + k * block, d + k * block, block)
  {
    DivUnique(k * block + block - 1, block, k, block - 1);
    hide Move;
  }

  /** The chunked copy leaves what copying unit by unit leaves, on every memory, exactly when there is no hazard. */
  lemma ChunksAreUnits(u: Setup, s: int, d: int, k: nat)
    requires Legal(u) && u.sourceMode == u.destinationMode == 1
    ensures (forall m: Memory :: Same(Blocks(m, s, d, CHUNK, k * u.unit), UnitCopy(u, m, s, d, k)))
       <==> !Hazard(u, s, d, k * u.unit)
  {
    var n := k * u.unit;
    if Hazard(u, s, d, n) {
      var m, o := LandedDiffer(s, d, u.unit, n);
      UnitsAreBlocks(u, m, s, d, k);
      BlocksLand(m, s, d, CHUNK, n);
      BlocksLand(m, s, d, u.unit, n);
      assert Blocks(m, s, d, CHUNK, n)(d + o) != UnitCopy(u, m, s, d, k)(d + o);
    } else {
      forall m: Memory ensures Same(Blocks(m, s, d, CHUNK, n), UnitCopy(u, m, s, d, k)) {
        UnitsAreBlocks(u, m, s, d, k);
        SafeCopies(m, s, d, u.unit, n);
      }
    }
  }

  lemma SafeCopies(m: Memory, s: int, d: int, unit: nat, n: nat)
    requires 0 < unit < CHUNK && !(0 < d - s < Reach(n) && unit < Reach(n))
    ensures Same(Blocks(m, s, d, CHUNK, n), Blocks(m, s, d, unit, n))
  {
    BlocksLand(m, s, d, CHUNK, n);
    BlocksLand(m, s, d, unit, n);
    var x, y := Blocks(m, s, d, CHUNK, n), Blocks(m, s, d, unit, n);
    hide Blocks, Landed, Reach;
    forall a ensures x(a) == y(a) {
      if d <= a < d + n {
        SafeByte(m, s, d, unit, n, a - d);
      }
    }
  }

  lemma SafeByte(m: Memory, s: int, d: int, unit: nat, n: nat, o: nat)
    requires 0 < unit < CHUNK && !(0 < d - s < Reach(n) && unit < Reach(n)) && o < n
    ensures Landed(m, s, d, CHUNK, o) == Landed(m, s, d, unit, o)
  {
    if n <= unit {
      FirstBlock(m, s, d, CHUNK, o);
      FirstBlock(m, s, d, unit, o);
      hide Landed, Reach;
    } else {
      LandedAgree(m, s, d, unit, n, o);
      hide Landed;
    }
  }

  // ----------------------------------------------------------- the loop itself

  /** Memory and registers after a transfer. */
  datatype Outcome = Outcome(memory: Memory, sar: nat, dar: nat)

  /** Copy `tcr` units; the channel's address registers end past the transfer, as 32-bit words. */
  method Run(u: Setup, m: Memory, source: int, destination: int, tcr: nat) returns (r: Outcome)
    requires Legal(u)
    ensures var n := tcr * u.unit;
            && r.sar == (source + Stride(u.sourceMode) * n) % U32
            && r.dar == (destination + Stride(u.destinationMode) * n) % U32
            && r.memory == if u.sourceMode == 1 && u.destinationMode == 1 then Blocks(m, source, destination, CHUNK, n)
                           else UnitCopy(u, m, source, destination, tcr)
  {
    var memory, s, d := m, source, destination;
    var remaining: nat := tcr * u.unit;
    ghost var units: nat := 0;
    hide Blocks, UnitCopy, Move, Stride;
    Begins(u, m, source, destination);
    while remaining != 0
      invariant remaining <= tcr * u.unit && units <= tcr
      invariant Progress(u, m, source, destination, units, tcr * u.unit, remaining, s, d, memory)
    {
      hide Progress;
      var chunk: nat := if remaining < CHUNK then remaining else CHUNK;
      if u.sourceMode != 1 || u.destinationMode != 1 {
        chunk := u.unit;
      }
      Progresses(u, m, source, destination, tcr, units, remaining, s, d, memory);
      if !Bulk(u) {
        units := units + 1;
      }
      memory := Move(memory, s, d, chunk);
      s, d := s + Stride(u.sourceMode) * chunk, d + Stride(u.destinationMode) * chunk;
      remaining := remaining - chunk;
    }
    if !Bulk(u) {
      SameCount(units, tcr, u.unit);
    }
    r := Outcome(memory, s % U32, d % U32);
  }

  predicate Bulk(u: Setup) { u.sourceMode == 1 && u.destinationMode == 1 }

  /** Where the loop stands with `remaining` bytes to go. */
  ghost predicate Progress(u: Setup, m: Memory, source: int, destination: int, units: nat, n: nat, remaining: nat,
                           s: int, d: int, memory: Memory)
    requires remaining <= n
  {
    var done := n - remaining;
    && s == source + Stride(u.sourceMode) * done && d == destination + Stride(u.destinationMode) * done
    && if Bulk(u) then (remaining == 0 || done % CHUNK == 0) && memory == Blocks(m, source, destination, CHUNK, done)
       else done == units * u.unit && memory == UnitCopy(u, m, source, destination, units)
  }

  lemma Begins(u: Setup, m: Memory, source: int, destination: int)
    ensures Stride(u.sourceMode) * 0 == 0 && Stride(u.destinationMode) * 0 == 0
    ensures Blocks(m, source, destination, CHUNK, 0) == m == UnitCopy(u, m, source, destination, 0)
  {
  }

  lemma Progresses(u: Setup, m: Memory, source: int, destination: int, tcr: nat, units: nat, remaining: nat,
                   s: int, d: int, memory: Memory)
    requires Legal(u) && 0 < remaining <= tcr * u.unit && units <= tcr
    requires Progress(u, m, source, destination, units, tcr * u.unit, remaining, s, d, memory)
    ensures var n := tcr * u.unit;
            var chunk := if !Bulk(u) then u.unit else if remaining < CHUNK then remaining else CHUNK;
            && chunk <= remaining && (!Bulk(u) ==> units < tcr)
            && Progress(u, m, source, destination, if Bulk(u) then units else units + 1, n, remaining - chunk,
                        s + Stride(u.sourceMode) * chunk, d + Stride(u.destinationMode) * chunk, Move(memory, s, d, chunk))
  {
    var done := tcr * u.unit - remaining;
    var chunk := if !Bulk(u) then u.unit else if remaining < CHUNK then remaining else CHUNK;
    hide Blocks, UnitCopy, Move, Stride;
    Further(Stride(u.sourceMode), done, chunk);
    Further(Stride(u.destinationMode), done, chunk);
    if Bulk(u) {
      NextBlock(done, chunk);
      BlocksNext(m, source, destination, done, chunk);
      assert Stride(u.sourceMode) == Stride(u.destinationMode) == 1 by {
        Upward();
      }
    } else {
      UnitsLeft(tcr, units, u.unit);
      UnitsNext(u, m, source, destination, units);
    }
  }

  lemma Further(stride: int, done: nat, chunk: nat)
    ensures stride * (done + chunk) == stride * done + stride * chunk
  {
  }

  lemma Upward()
    ensures Stride(1) == 1
  {
  }

  lemma BlocksNext(m: Memory, s: int, d: int, done: nat, chunk: nat)
    requires 0 < chunk && (done + chunk - 1) / CHUNK * CHUNK == done
    ensures Blocks(m, s, d, CHUNK, done + chunk) == Move(Blocks(m, s, d, CHUNK, done), s + done, d + done, chunk)
  {
    hide Move;
  }

  lemma UnitsNext(u: Setup, m: Memory, s: int, d: int, k: nat)
    ensures UnitCopy(u, m, s, d, k + 1) == Move(UnitCopy(u, m, s, d, k), s + Stride(u.sourceMode) * (k * u.unit),
                                                d + Stride(u.destinationMode) * (k * u.unit), u.unit)
  {
    hide Move, Stride;
  }

  lemma UnitsLeft(tcr: nat, units: nat, unit: nat)
    requires 0 < unit && units <= tcr && units * unit < tcr * unit
    ensures units < tcr && units * unit + unit <= tcr * unit && (units + 1) * unit == units * unit + unit
  {
    Multiple(tcr - units - 1, unit);
    assert (tcr - units) * unit == tcr * unit - units * unit;
    if tcr == units {
      assert false;
    }
    assert (tcr - units - 1) * unit == tcr * unit - units * unit - unit;
  }

  lemma SameCount(a: nat, b: nat, unit: nat)
    requires 0 < unit && a * unit == b * unit
    ensures a == b
  {
    Multiple(a - b, unit);
    assert (a - b) * unit == a * unit - b * unit;
  }

  lemma NextBlock(done: nat, chunk: nat)
    requires done % CHUNK == 0 && 0 < chunk <= CHUNK
    ensures (done + chunk - 1) / CHUNK * CHUNK == done
    ensures chunk == CHUNK ==> (done + chunk) % CHUNK == 0
  {
    DivUnique(done + chunk - 1, CHUNK, done / CHUNK, chunk - 1);
  }

  /** Where in its unit offset `o` lies. */
  function InUnit(u: Setup, o: nat): nat requires u.unit > 0 { o % u.unit }

  /** A fixed source fills: the boot's way of clearing memory from one zero word. */
  lemma FixedSourceFills(u: Setup, m: Memory, s: int, d: int, k: nat, a: int)
    requires Legal(u) && u.sourceMode == 0 && u.destinationMode == 1
    requires s + u.unit <= d || d + k * u.unit <= s
    ensures UnitCopy(u, m, s, d, k)(a) == if d <= a < d + k * u.unit then m(s + InUnit(u, a - d)) else m(a)
  {
    assert u.unit > 0;
    hide InUnit, UnitCopy;
    FillsUp(u, m, s, d, k, a);
  }

  function Size(u: Setup, k: nat): nat { k * u.unit }

  lemma SizeNext(u: Setup, k: nat)
    ensures Size(u, 0) == 0 && Size(u, k + 1) == Size(u, k) + u.unit
  {
  }

  lemma {:induction false} FillsUp(u: Setup, m: Memory, s: int, d: int, k: nat, a: int)
    requires u.unit > 0 && u.sourceMode == 0 && u.destinationMode == 1
    requires s + u.unit <= d || d + Size(u, k) <= s
    ensures UnitCopy(u, m, s, d, k)(a) == if d <= a < d + Size(u, k) then m(s + InUnit(u, a - d)) else m(a)
    decreases k
  {
    hide *;
    if k == 0 {
      SizeNext(u, 0);
      NothingCopied(u, m, s, d);
    } else {
      SizeNext(u, k - 1);
      var n := Size(u, k - 1);
      FillsUp(u, m, s, d, k - 1, a);
      if d + n <= a < d + n + u.unit {
        FillsUp(u, m, s, d, k - 1, s + (a - (d + n)));
        LastUnit(u, k - 1, a - d);
      }
      FixedUnitNext(u, m, s, d, k - 1);
      FillsOne(u, m, UnitCopy(u, m, s, d, k - 1), s, d, n, a);
    }
  }

  lemma FixedUnitNext(u: Setup, m: Memory, s: int, d: int, k: nat)
    requires u.sourceMode == 0 && u.destinationMode == 1
    ensures UnitCopy(u, m, s, d, k + 1) == Move(UnitCopy(u, m, s, d, k), s, d + Size(u, k), u.unit)
  {
    assert Stride(0) == 0 && Stride(1) == 1;
    hide Move, Stride;
  }

  /** One unit more from a fixed source. */
  lemma FillsOne(u: Setup, m: Memory, before: Memory, s: int, d: int, n: nat, a: int)
    requires u.unit > 0 && (s + u.unit <= d || d + n + u.unit <= s)
    requires before(a) == if d <= a < d + n then m(s + InUnit(u, a - d)) else m(a)
    requires d + n <= a < d + n + u.unit ==> before(s + (a - (d + n))) == m(s + (a - (d + n))) && InUnit(u, a - d) == a - d - n
    ensures Move(before, s, d + n, u.unit)(a) == if d <= a < d + n + u.unit then m(s + InUnit(u, a - d)) else m(a)
  {
    hide *;
    MoveAt(before, s, d + n, u.unit, a);
    if d + n <= a < d + n + u.unit {
      assert s + (a - (d + n)) == s + InUnit(u, a - d);
    }
  }

  lemma MoveAt(m: Memory, s: int, d: int, n: nat, a: int)
    ensures Move(m, s, d, n)(a) == if d <= a < d + n then m(s + (a - d)) else m(a)
  {
  }

  lemma LastUnit(u: Setup, k: nat, o: nat)
    requires Size(u, k) <= o < Size(u, k) + u.unit
    ensures InUnit(u, o) == o - Size(u, k)
  {
    DivUnique(o, u.unit, k, o - k * u.unit);
  }

  lemma NothingCopied(u: Setup, m: Memory, s: int, d: int)
    ensures UnitCopy(u, m, s, d, 0) == m
  {
  }

  /** Two decrementing addresses move a block end first, which is safe when it goes to higher addresses. */
  lemma {:induction false} DownwardMoves(u: Setup, m: Memory, s: int, d: int, k: nat, a: int)
    requires Legal(u) && u.sourceMode == 2 && u.destinationMode == 2 && (s <= d || d + k * u.unit <= s)
    ensures UnitCopy(u, m, s, d, k)(a) ==
            if d + u.unit - k * u.unit <= a < d + u.unit then m(a - d + s) else m(a)
    decreases k
  {
    if k > 0 {
      var n, size := (k - 1) * u.unit, u.unit;
      assert k * size == n + size;
      var x := a - d + s;
      DownwardMoves(u, m, s, d, k - 1, a);
      DownwardMoves(u, m, s, d, k - 1, x);
      var before, r := UnitCopy(u, m, s, d, k - 1), UnitCopy(u, m, s, d, k);
      assert r(a) == if d - n <= a < d - n + size then before(s - n + (a - (d - n))) else before(a);
      assert s - n + (a - (d - n)) == x;
      hide UnitCopy;
      assert before(x) == if d + size - n <= x < d + size then m(x - d + s) else m(x);
    }
  }
}
