/**
 The closed form of a three-dimensional transfer (SPRUH91D section 16.2.2.2): by adding indices
 and counting down, an array (A-sync) or row (AB-sync) an event, it moves a C by B grid.
 */
module EdmaGrid {
  import opened Common
  import opened Memory
  import opened Edma

  /** A set that walks a grid: no STATIC, and under A-sync the B count reloaded as it began. */
  predicate Gridded(p: Param)
    ensures Gridded(p) ==> p.BCnt() > 0
  {
    ParamOk(p) && ValidParam(p) && !p.Static() && (p.AbSync() || p.Reload() == p.BCnt())
  }

  /** How many events the transfer takes. */
  function Events(p: Param): nat { if p.AbSync() then p.CCnt() else p.CCnt() * p.BCnt() }

  /** The distance between rows: the C index counts from the last array of a row, or under AB-sync from its first. */
  function SrcStep(p: Param): int { if p.AbSync() then p.SrcC() else (p.BCnt() - 1) * p.SrcB() + p.SrcC() }
  function DstStep(p: Param): int { if p.AbSync() then p.DstC() else (p.BCnt() - 1) * p.DstB() + p.DstC() }

  /** The array in row `c` at place `b`. */
  function Cell(p: Param, c: nat, b: nat): (nat, nat) {
    (Bump(p.src, c * SrcStep(p) + b * p.SrcB()), Bump(p.dst, c * DstStep(p) + b * p.DstB()))
  }

  /** The first `n` arrays of the grid, row by row. */
  function Grid(p: Param, n: nat): (r: seq<(nat, nat)>)
    requires p.BCnt() > 0
    ensures |r| == n
  {
    seq(n, k requires 0 <= k < n => Nth(p, k))
  }

  /** Array number `n` of the grid, counting row by row. */
  function Nth(p: Param, n: nat): (nat, nat)
    requires p.BCnt() > 0
  {
    Cell(p, n / p.BCnt(), n % p.BCnt())
  }

  // ----------------------------------------------------------- address algebra

  lemma BumpBump(a: nat, x: int, y: int)
    ensures Bump(Bump(a, x), y) == Bump(a, x + y)
  {
    var q := (a + x) / WORD;
    assert a + x == q * WORD + Bump(a, x);
    ModShift(Bump(a, x) + y, q);
  }

  lemma ModShift(z: int, q: int)
    ensures (z + q * WORD) % WORD == z % WORD
  {
  }

  lemma {:induction false} MovesAre(src: nat, dst: nat, srcB: int, dstB: int, n: nat, b: nat)
    requires b < n && src < WORD && dst < WORD
    ensures Moves(src, dst, srcB, dstB, n)[b] == (Bump(src, b * srcB), Bump(dst, b * dstB))
    decreases n
  {
    if b == 0 {
      assert Bump(src, 0) == src && Bump(dst, 0) == dst;
    } else {
      MovesAre(Bump(src, srcB), Bump(dst, dstB), srcB, dstB, n - 1, b - 1);
      BumpBump(src, srcB, (b - 1) * srcB);
      BumpBump(dst, dstB, (b - 1) * dstB);
      assert srcB + (b - 1) * srcB == b * srcB && dstB + (b - 1) * dstB == b * dstB;
    }
  }

  // --------------------------------------------- the set after so many events

  /** The set in closed form when the next array is the one in row `c` at place `b`. */
  function At(p: Param, c: nat, b: nat): Param
    requires p.BCnt() > b && p.CCnt() > c
  {
    p.(src := Cell(p, c, b).0, dst := Cell(p, c, b).1, cnt := p.ACnt() + (p.BCnt() - b) * 0x10000, ccnt := p.CCnt() - c)
  }

  lemma AtFields(p: Param, c: nat, b: nat)
    requires Gridded(p) && b < p.BCnt() && c < p.CCnt()
    ensures var q := At(p, c, b);
            && q.ACnt() == p.ACnt() && q.BCnt() == p.BCnt() - b && q.CCnt() == p.CCnt() - c
            && q.Reload() == p.Reload() && q.opt == p.opt && q.link == p.link && ValidParam(q) && ParamOk(q)
            && q.SrcB() == p.SrcB() && q.DstB() == p.DstB() && q.SrcC() == p.SrcC() && q.DstC() == p.DstC()
  {
    var q := At(p, c, b);
    CellInWords(p, c, b);
    hide Bump, Cell;
    CountFields(p.cnt, b);
    assert q.ccnt == p.CCnt() - c && q.ccnt < 0x10000;
    SmallMod(q.ccnt);
    hide LegalOpt;
  }

  lemma SmallMod(v: nat)
    requires v < 0x10000
    ensures v % 0x10000 == v
  {
  }

  lemma CountFields(cnt: nat, b: nat)
    requires cnt < WORD && b < cnt / 0x10000
    ensures var q := cnt % 0x10000 + (cnt / 0x10000 - b) * 0x10000;
            q / 0x10000 == cnt / 0x10000 - b && q % 0x10000 == cnt % 0x10000 && q < WORD
  {
    DivUnique(cnt % 0x10000 + (cnt / 0x10000 - b) * 0x10000, 0x10000, cnt / 0x10000 - b, cnt % 0x10000);
  }

  lemma CellInWords(p: Param, c: nat, b: nat)
    ensures Cell(p, c, b).0 < WORD && Cell(p, c, b).1 < WORD
  {
  }

  lemma AtStart(p: Param)
    requires Gridded(p)
    ensures At(p, 0, 0) == p
  {
    assert 0 * SrcStep(p) + 0 * p.SrcB() == 0 && 0 * DstStep(p) + 0 * p.DstB() == 0;
    assert Bump(p.src, 0) == p.src && Bump(p.dst, 0) == p.dst;
  }

  lemma {:induction false} RowStep(step: int, index: int, c: nat, b: nat, width: nat, inRow: int)
    requires step == (width - 1) * inRow + index && b == width - 1
    ensures c * step + b * inRow + index == (c + 1) * step + 0 * inRow
  {
    assert (c + 1) * step == c * step + step;
  }

  /** One A-synchronised event moves the set from one array of the grid to the next. */
  lemma AdvancesA(p: Param, c: nat, b: nat)
    requires Gridded(p) && !p.AbSync() && b < p.BCnt() && c < p.CCnt()
    ensures At(p, c, b).Final() <==> b == p.BCnt() - 1 && c == p.CCnt() - 1
    ensures !At(p, c, b).Final() ==>
              Advance(At(p, c, b)) == if b + 1 < p.BCnt() then At(p, c, b + 1) else At(p, c + 1, 0)
  {
    var q := At(p, c, b);
    AtFields(p, c, b);
    assert q.AbSync() == p.AbSync();
    if b + 1 < p.BCnt() {
      BumpBump(p.src, c * SrcStep(p) + b * p.SrcB(), p.SrcB());
      BumpBump(p.dst, c * DstStep(p) + b * p.DstB(), p.DstB());
      assert b * p.SrcB() + p.SrcB() == (b + 1) * p.SrcB() && b * p.DstB() + p.DstB() == (b + 1) * p.DstB();
      hide Bump, SrcStep, DstStep, ValidParam, ParamOk;
    } else if c + 1 < p.CCnt() {
      BumpBump(p.src, c * SrcStep(p) + b * p.SrcB(), p.SrcC());
      BumpBump(p.dst, c * DstStep(p) + b * p.DstB(), p.DstC());
      RowStep(SrcStep(p), p.SrcC(), c, b, p.BCnt(), p.SrcB());
      RowStep(DstStep(p), p.DstC(), c, b, p.BCnt(), p.DstB());
      hide Bump, SrcStep, DstStep, ValidParam, ParamOk;
    }
  }

  /** One AB-synchronised event moves it from one row to the next. */
  lemma AdvancesAb(p: Param, c: nat)
    requires Gridded(p) && p.AbSync() && c < p.CCnt()
    ensures At(p, c, 0).Final() <==> c == p.CCnt() - 1
    ensures c + 1 < p.CCnt() ==> Advance(At(p, c, 0)) == At(p, c + 1, 0)
  {
    var q := At(p, c, 0);
    AtFields(p, c, 0);
    assert q.AbSync() == p.AbSync();
    if c + 1 < p.CCnt() {
      NextRow(p.src, c, SrcStep(p), p.SrcB());
      NextRow(p.dst, c, DstStep(p), p.DstB());
      assert SrcStep(p) == p.SrcC() && DstStep(p) == p.DstC();
      hide Bump, ValidParam, ParamOk, SrcStep, DstStep, Gridded;
    }
  }

  lemma NextRow(a: nat, c: nat, step: int, inRow: int)
    ensures Bump(Bump(a, c * step + 0 * inRow), step) == Bump(a, (c + 1) * step + 0 * inRow)
  {
    BumpBump(a, c * step + 0 * inRow, step);
    assert (c + 1) * step == c * step + step && 0 * inRow == 0;
    hide Bump;
  }

  /** The set after `k` events, by running the engine's update. */
  function After(p: Param, k: nat): Param {
    if k == 0 then p else Advance(After(p, k - 1))
  }

  function Row(p: Param, k: nat): nat requires p.BCnt() > 0 { if p.AbSync() then k else k / p.BCnt() }
  function Place(p: Param, k: nat): nat requires p.BCnt() > 0 { if p.AbSync() then 0 else k % p.BCnt() }

  lemma PlaceInGrid(p: Param, k: nat)
    requires p.BCnt() > 0 && k < Events(p)
    ensures Row(p, k) < p.CCnt() && Place(p, k) < p.BCnt()
    ensures !p.AbSync() ==> k == Row(p, k) * p.BCnt() + Place(p, k)
  {
    if !p.AbSync() {
      DivBound(k, p.CCnt(), p.BCnt());
    }
  }

  lemma DivBound(k: nat, c: nat, b: nat)
    requires 0 < b && k < c * b
    ensures k / b < c && k == k / b * b + k % b
  {
    Multiple(k / b - c, b);
    assert (k / b - c) * b == k / b * b - c * b;
  }

  lemma DivNext(k: nat, b: nat)
    requires 0 < b
    ensures if k % b + 1 < b then (k + 1) / b == k / b && (k + 1) % b == k % b + 1
            else (k + 1) / b == k / b + 1 && (k + 1) % b == 0
  {
    var q, r := k / b, k % b;
    assert k == q * b + r;
    if r + 1 < b {
      DivUnique(k + 1, b, q, r + 1);
    } else {
      assert (q + 1) * b == q * b + b;
      DivUnique(k + 1, b, q + 1, 0);
    }
  }

  /**
   The closed form of the set before event `k`: its addresses are those of the array in row
   k div B at place k mod B (row k under AB-sync), and only the last event is final.
   */
  lemma {:induction false} AfterIsAt(p: Param, k: nat)
    requires Gridded(p) && k < Events(p)
    ensures Row(p, k) < p.CCnt() && Place(p, k) < p.BCnt()
    ensures After(p, k) == At(p, Row(p, k), Place(p, k))
    ensures After(p, k).Final() <==> k == Events(p) - 1
  {
    FinalLast(p, k);
    hide Gridded, At, Row, Place, Advance;
    if k == 0 {
      FirstPlace(p);
      AtStart(p);
    } else {
      StepBack(p, k);
      hide Events;
      AfterIsAt(p, k - 1);
      AtAdvances(p, k - 1);
    }
  }

  lemma FirstPlace(p: Param)
    requires Gridded(p)
    ensures Row(p, 0) == 0 && Place(p, 0) == 0
  {
    DivUnique(0, p.BCnt(), 0, 0);
  }

  lemma StepBack(p: Param, k: nat)
    requires 0 < k < Events(p)
    ensures k - 1 < Events(p)
  {
  }

  lemma AtAdvances(p: Param, k: nat)
    requires Gridded(p) && k + 1 < Events(p)
    ensures Row(p, k) < p.CCnt() && Place(p, k) < p.BCnt() && Row(p, k + 1) < p.CCnt() && Place(p, k + 1) < p.BCnt()
    ensures Advance(At(p, Row(p, k), Place(p, k))) == At(p, Row(p, k + 1), Place(p, k + 1))
  {
    PlaceInGrid(p, k);
    PlaceInGrid(p, k + 1);
    FinalLast(p, k);
    hide At, Advance, Gridded;
    if p.AbSync() {
      AdvancesAb(p, k);
    } else {
      AdvancesA(p, Row(p, k), Place(p, k));
      DivNext(k, p.BCnt());
    }
  }

  lemma FinalLast(p: Param, k: nat)
    requires Gridded(p) && k < Events(p)
    ensures Row(p, k) < p.CCnt() && Place(p, k) < p.BCnt()
    ensures At(p, Row(p, k), Place(p, k)).Final() <==> k == Events(p) - 1
  {
    PlaceInGrid(p, k);
    if p.AbSync() {
      AdvancesAb(p, k);
    } else {
      var c, b := Row(p, k), Place(p, k);
      AdvancesA(p, c, b);
      hide At, Gridded;
      LastCell(k, c, b, p.CCnt(), p.BCnt());
    }
  }

  lemma LastCell(k: nat, c: nat, b: nat, rows: nat, width: nat)
    requires c < rows && b < width && k == c * width + b
    ensures k == rows * width - 1 <==> c == rows - 1 && b == width - 1
  {
    Multiple(rows - 1 - c, width);
    assert (rows - 1 - c) * width == rows * width - width - c * width;
  }

  // ----------------------------------------------------------- what is moved

  /** All arrays moved by the first `k` events. */
  function MovedBy(p: Param, k: nat): seq<(nat, nat)> {
    if k == 0 then [] else MovedBy(p, k - 1) + MovesOf(After(p, k - 1))
  }

  /** Arrays moved so far when `k` events have run. */
  function Count(p: Param, k: nat): nat { if p.AbSync() then k * p.BCnt() else k }

  /** The arrays of the grid that follow the first `m`. */
  ghost predicate Follow(p: Param, m: nat, more: seq<(nat, nat)>)
    requires p.BCnt() > 0
  {
    forall i | 0 <= i < |more| :: more[i] == Nth(p, m + i)
  }

  /** Event `k` moves the arrays of the grid from number Count(p, k) on. */
  lemma EventCells(p: Param, k: nat)
    requires Gridded(p) && k < Events(p)
    ensures Count(p, k + 1) == Count(p, k) + |MovesOf(After(p, k))|
    ensures Follow(p, Count(p, k), MovesOf(After(p, k)))
  {
    AfterIsAt(p, k);
    hide After;
    if p.AbSync() {
      RowCells(p, k);
    } else {
      OneMove(p, Row(p, k), Place(p, k));
      hide Cell, MovesOf, At, Gridded;
    }
  }

  lemma RowCells(p: Param, c: nat)
    requires Gridded(p) && p.AbSync() && c < p.CCnt()
    ensures |MovesOf(At(p, c, 0))| == p.BCnt() && Follow(p, c * p.BCnt(), MovesOf(At(p, c, 0)))
    ensures (c + 1) * p.BCnt() == c * p.BCnt() + p.BCnt()
  {
    var width, row := p.BCnt(), MovesOf(At(p, c, 0));
    hide Cell, MovesOf, At;
    RowCell(p, c, 0);
    forall i | 0 <= i < |row| ensures row[i] == Nth(p, c * width + i) {
      RowCell(p, c, i);
      NthInRow(p, c, i);
    }
  }

  lemma NthInRow(p: Param, c: nat, i: nat)
    requires i < p.BCnt()
    ensures Nth(p, c * p.BCnt() + i) == Cell(p, c, i)
  {
    DivUnique(c * p.BCnt() + i, p.BCnt(), c, i);
    hide Cell;
  }

  lemma GridGrows(p: Param, m: nat, more: seq<(nat, nat)>)
    requires p.BCnt() > 0 && Follow(p, m, more)
    ensures Grid(p, m + |more|) == Grid(p, m) + more
  {
    hide Nth;
    var g := Grid(p, m + |more|);
    forall j | 0 <= j < m + |more| ensures g[j] == (Grid(p, m) + more)[j] {
      assert j >= m ==> more[j - m] == Nth(p, m + (j - m));
    }
  }

  /**
   The arrays a transfer moves are exactly those of its grid, in order: event by event, and
   hence BCNT*CCNT of them in all.
   */
  lemma {:induction false} MovesTheGrid(p: Param, k: nat)
    requires Gridded(p) && k <= Events(p)
    ensures MovedBy(p, k) == Grid(p, Count(p, k))
  {
    hide Gridded, Events, MovesOf, Grid, After, Follow;
    assert Count(p, 0) == 0;
    if k > 0 {
      hide Count;
      MovesTheGrid(p, k - 1);
      EventCells(p, k - 1);
      assert MovedBy(p, k) == MovedBy(p, k - 1) + MovesOf(After(p, k - 1));
      GridGrows(p, Count(p, k - 1), MovesOf(After(p, k - 1)));
    }
  }

  lemma OneMove(p: Param, c: nat, b: nat)
    requires Gridded(p) && !p.AbSync() && b < p.BCnt() && c < p.CCnt()
    ensures MovesOf(At(p, c, b)) == [Cell(p, c, b)]
  {
    var q := At(p, c, b);
    assert q.AbSync() == p.AbSync();
    assert Moves(Bump(q.src, q.SrcB()), Bump(q.dst, q.DstB()), q.SrcB(), q.DstB(), 0) == [];
  }

  lemma RowCell(p: Param, c: nat, i: nat)
    requires Gridded(p) && p.AbSync() && i < p.BCnt() && c < p.CCnt()
    ensures |MovesOf(At(p, c, 0))| == p.BCnt() && MovesOf(At(p, c, 0))[i] == Cell(p, c, i)
  {
    var q := At(p, c, 0);
    AtFields(p, c, 0);
    assert q.AbSync() == p.AbSync();
    MovesAre(q.src, q.dst, q.SrcB(), q.DstB(), p.BCnt(), i);
    BumpBump(p.src, c * SrcStep(p) + 0 * p.SrcB(), i * p.SrcB());
    BumpBump(p.dst, c * DstStep(p) + 0 * p.DstB(), i * p.DstB());
  }

  /** AB-synchronisation moves the arrays of A-synchronisation when its C index is counted from the start of a row. */
  lemma SameGrid(p: Param, q: Param)
    requires Gridded(p) && Gridded(q) && !p.AbSync() && q.AbSync()
    requires p.src == q.src && p.dst == q.dst && p.cnt == q.cnt && p.bidx == q.bidx && p.ccnt == q.ccnt
    requires q.SrcC() == (p.BCnt() - 1) * p.SrcB() + p.SrcC() && q.DstC() == (p.BCnt() - 1) * p.DstB() + p.DstC()
    ensures MovedBy(p, Events(p)) == MovedBy(q, Events(q))
  {
    MovesTheGrid(p, Events(p));
    MovesTheGrid(q, Events(q));
    assert Count(p, Events(p)) == Count(q, Events(q));
    GridsAgree(p, q, Count(p, Events(p)));
    hide *;
  }

  lemma GridsAgree(p: Param, q: Param, n: nat)
    requires p.BCnt() == q.BCnt() > 0 && p.src == q.src && p.dst == q.dst && p.bidx == q.bidx
    requires SrcStep(p) == SrcStep(q) && DstStep(p) == DstStep(q)
    ensures Grid(p, n) == Grid(q, n)
  {
    hide Bump, SrcStep, DstStep, p.BCnt, q.BCnt, p.SrcB, q.SrcB, p.DstB, q.DstB;
    assert p.SrcB() == q.SrcB() && p.DstB() == q.DstB() by { SameSteps(p, q); }
    forall k | 0 <= k < n ensures Nth(p, k) == Nth(q, k) {
    }
  }

  lemma SameSteps(p: Param, q: Param)
    requires p.bidx == q.bidx
    ensures p.SrcB() == q.SrcB() && p.DstB() == q.DstB()
  {
  }
}
