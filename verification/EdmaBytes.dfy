/**
 The bytes a transfer moves: what memory holds after any list of moves, and, for a grid whose
 arrays keep clear of each other, byte by byte from the fields its set was built from.
 */
module EdmaBytes {
  import opened Common
  import opened Memory
  import opened Edma
  import opened EdmaPlan
  import opened EdmaGrid
  import opened EdmaTransfer

  // ------------------------------------------------------------- one move

  /** Both ends of a move lie in memory. */
  predicate Inside(c: Config, m: Move) { Span(c, m.src, m.n).Some? && Span(c, m.dst, m.n).Some? }

  function From(c: Config, m: Move): nat requires Inside(c, m) { Span(c, m.src, m.n).value }
  function To(c: Config, m: Move): nat requires Inside(c, m) { Span(c, m.dst, m.n).value }

  /** Memory `r` is `m` with the `n` bytes at `s` written at `d`. */
  ghost predicate Copied(m: seq<Byte>, r: seq<Byte>, s: nat, d: nat, n: nat)
    requires |m| == |r| == TOTAL && s + n <= TOTAL && d + n <= TOTAL
  {
    r[d..d + n] == m[s..s + n] && forall x | 0 <= x < TOTAL && !(d <= x < d + n) :: r[x] == m[x]
  }

  lemma PokeCopies(m: seq<Byte>, s: nat, d: nat, n: nat)
    requires |m| == TOTAL && s + n <= TOTAL && d + n <= TOTAL
    ensures Copied(m, Poke(m, Write(d, m[s..s + n])), s, d, n)
  {
    var data := m[s..s + n];
    var r := Poke(m, Write(d, data));
    hide Poke;
    forall k | 0 <= k < n ensures r[d..d + n][k] == data[k] {
      assert r[d..d + n][k] == r[d + k];
    }
    assert r[d..d + n] == data;
  }

  /** A move within memory is always taken, and copies its bytes and no others. */
  lemma MoveCopies<D>(port: Port<D>, b: Bus<D>, m: Move)
    requires BusOk(b) && Inside(b.config, m)
    ensures Carry(port, b, [m], false) == Moved(true, b)
    ensures var r := Carry(port, b, [m], true);
            && r.ok && r.bus.device == b.device
            && Copied(Flat(b.store), Flat(r.bus.store), From(b.config, m), To(b.config, m), m.n)
  {
    var s, d := From(b.config, m), To(b.config, m);
    assert [m][1..] == [];
    ViewIsFlat(b.store, s, m.n);
    var data := View(b.store, s, m.n);
    assert Read(b, m.src, m.n) == Some(data) && |data| == m.n;
    PutIsPoke(b.store, d, data);
    PokeCopies(Flat(b.store), s, d, m.n);
    var b1 := b.(store := Put(b.store, d, data));
    assert WriteBytes(port, b, m.dst, data, false) == Some(b) && WriteBytes(port, b, m.dst, data, true) == Some(b1);
    hide View, Put, Flat, Poke, Copied, Span, Read, WriteBytes;
    CarryNone(port, b, false);
    CarryNone(port, b1, true);
  }

  /** A word moved to a peripheral is the four bytes of memory, least significant first. */
  lemma WordGoesOut<D>(port: Port<D>, b: Bus<D>, m: Move)
    requires BusOk(b) && m.n == 4 && Span(b.config, m.src, 4).Some? && Span(b.config, m.dst, 4).None?
    ensures var s := Span(b.config, m.src, 4).value;
            var bytes := Flat(b.store);
            var word := bytes[s] as int + 0x100 * bytes[s + 1] as int + 0x10000 * bytes[s + 2] as int + 0x1000000 * bytes[s + 3] as int;
            var taken := port.write(b.device, m.dst, word);
            Carry(port, b, [m], true) == if taken.Some? then Moved(true, b.(device := taken.value)) else Moved(false, b)
  {
    var data := FourRead(b, m.src);
    FourBytes(data);
    hide View, Flat, Span, Read, Little, BusOk, StoreOk;
    CarryWord(port, b, m, data);
  }

  lemma FourRead<D>(b: Bus<D>, address: nat) returns (data: seq<Byte>)
    requires BusOk(b) && Span(b.config, address, 4).Some?
    ensures var s, bytes := Span(b.config, address, 4).value, Flat(b.store);
            && |bytes| == TOTAL && data == [bytes[s], bytes[s + 1], bytes[s + 2], bytes[s + 3]] && Read(b, address, 4) == Some(data)
  {
    var s := Span(b.config, address, 4).value;
    ViewIsFlat(b.store, s, 4);
    data := View(b.store, s, 4);
    hide Span, View;
  }

  lemma CarryWord<D>(port: Port<D>, b: Bus<D>, m: Move, data: seq<Byte>)
    requires BusOk(b) && m.n == 4 && Read(b, m.src, 4) == Some(data) && Span(b.config, m.dst, 4).None?
    ensures var taken := port.write(b.device, m.dst, Little(data));
            Carry(port, b, [m], true) == if taken.Some? then Moved(true, b.(device := taken.value)) else Moved(false, b)
  {
    assert [m][1..] == [];
    var taken := port.write(b.device, m.dst, Little(data));
    hide View, Span, Read, Little;
    if taken.Some? {
      CarryNone(port, b.(device := taken.value), true);
    }
  }

  lemma FourBytes(d: seq<Byte>)
    requires |d| == 4
    ensures Little(d) == d[0] as int + 0x100 * d[1] as int + 0x10000 * d[2] as int + 0x1000000 * d[3] as int
  {
    assert Little(d[3..]) == d[3] as int + 256 * Little(d[3..][1..]) && d[3..][1..] == [];
    assert d[2..][1..] == d[3..] && d[1..][1..] == d[2..];
    assert Little(d[2..]) == d[2] as int + 256 * Little(d[3..]);
    assert Little(d[1..]) == d[1] as int + 256 * Little(d[2..]);
  }

  // ---------------------------------------------------------- a list of moves

  predicate Clear(a: nat, n: nat, b: nat, m: nat) { a + n <= b || b + m <= a }

  predicate AllInside(c: Config, moves: seq<Move>) { forall m | m in moves :: Inside(c, m) }

  /** No move writes over what a later one reads or writes. */
  ghost predicate Apart(c: Config, moves: seq<Move>)
    requires AllInside(c, moves)
  {
    forall i, j | 0 <= i < j < |moves| ::
      && Clear(To(c, moves[i]), moves[i].n, To(c, moves[j]), moves[j].n)
      && Clear(To(c, moves[i]), moves[i].n, From(c, moves[j]), moves[j].n)
  }

  /** Some move writes the byte at `x`. */
  ghost predicate Written(c: Config, moves: seq<Move>, x: nat)
    requires AllInside(c, moves)
  {
    exists i | 0 <= i < |moves| :: To(c, moves[i]) <= x < To(c, moves[i]) + moves[i].n
  }

  /** Every move has put the bytes of its source in its place, and every other byte stands. */
  ghost predicate AllCopied(c: Config, moves: seq<Move>, m: seq<Byte>, r: seq<Byte>)
    requires AllInside(c, moves) && |m| == |r| == TOTAL
  {
    && (forall i | 0 <= i < |moves| ::
          r[To(c, moves[i])..To(c, moves[i]) + moves[i].n] == m[From(c, moves[i])..From(c, moves[i]) + moves[i].n])
    && (forall x | 0 <= x < TOTAL && !Written(c, moves, x) :: r[x] == m[x])
  }

  lemma {:induction false} MovesCopy<D>(port: Port<D>, b: Bus<D>, moves: seq<Move>)
    requires BusOk(b) && AllInside(b.config, moves) && Apart(b.config, moves)
    ensures Carry(port, b, moves, false).ok
    ensures var r := Carry(port, b, moves, true);
            r.ok && r.bus.device == b.device && AllCopied(b.config, moves, Flat(b.store), Flat(r.bus.store))
    decreases |moves|
  {
    var c := b.config;
    if moves == [] {
      CarryNone(port, b, true);
      CarryNone(port, b, false);
      assert BusOk(b) ==> StoreOk(b.store);
      hide *;
      NoneCopied(c, Flat(b.store));
    } else {
      var m, rest := moves[0], moves[1..];
      assert m in moves && (forall x | x in rest :: x in moves);
      RestApart(c, moves);
      hide *;
      var b1 := CarriesOn(port, b, moves);
      MovesCopy(port, b1, rest);
      MovesCopy(port, b, rest);
      CopiedFirst(c, moves, Flat(b.store), Flat(b1.store), Flat(Carry(port, b1, rest, true).bus.store));
    }
  }

  /** The first of some moves, and the bus on which the rest go on. */
  lemma CarriesOn<D>(port: Port<D>, b: Bus<D>, moves: seq<Move>) returns (b1: Bus<D>)
    requires BusOk(b) && moves != [] && Inside(b.config, moves[0])
    ensures BusOk(b1) && b1.config == b.config && b1.device == b.device && StoreOk(b.store) && StoreOk(b1.store)
    ensures Carry(port, b, moves, true) == Carry(port, b1, moves[1..], true)
    ensures Carry(port, b, moves, false).ok == Carry(port, b, moves[1..], false).ok
    ensures Copied(Flat(b.store), Flat(b1.store), From(b.config, moves[0]), To(b.config, moves[0]), moves[0].n)
  {
    var m, rest := moves[0], moves[1..];
    b1 := Carry(port, b, [m], true).bus;
    assert StoreOk(b.store) && StoreOk(b1.store);
    hide *;
    MoveCopies(port, b, m);
    assert [m] + rest == moves;
    CarryConcat(port, b, [m], rest, true);
    CarryConcat(port, b, [m], rest, false);
  }

  lemma NoneCopied(c: Config, m: seq<Byte>)
    requires |m| == TOTAL
    ensures AllInside(c, []) && AllCopied(c, [], m, m)
  {
  }

  lemma RestApart(c: Config, moves: seq<Move>)
    requires moves != [] && AllInside(c, moves) && Apart(c, moves)
    ensures AllInside(c, moves[1..]) && Apart(c, moves[1..]) && Inside(c, moves[0])
  {
    var rest := moves[1..];
    assert moves[0] in moves && forall x | x in rest :: x in moves;
    hide Inside, From, To, Clear;
    assert forall i | 0 <= i < |rest| :: rest[i] == moves[i + 1];
  }

  /** A stretch that a copy does not write stands. */
  lemma StretchStands(m: seq<Byte>, r: seq<Byte>, a: nat, n: nat)
    requires |m| == |r| == TOTAL && a + n <= TOTAL && forall x | a <= x < a + n :: r[x] == m[x]
    ensures r[a..a + n] == m[a..a + n]
  {
  }

  lemma CopiedFirst(c: Config, moves: seq<Move>, m: seq<Byte>, m1: seq<Byte>, r: seq<Byte>)
    requires moves != [] && AllInside(c, moves) && Apart(c, moves) && AllInside(c, moves[1..]) && Inside(c, moves[0])
    requires |m| == |m1| == |r| == TOTAL
    requires Copied(m, m1, From(c, moves[0]), To(c, moves[0]), moves[0].n) && AllCopied(c, moves[1..], m1, r)
    ensures AllCopied(c, moves, m, r)
  {
    hide *;
    forall i: nat | i < |moves| ensures Landed(c, moves, m, r, i) {
      MoveInside(c, moves, i);
      if i == 0 {
        FirstCopied(c, moves, m, m1, r);
      } else {
        RestFrom(c, moves, m, m1, r, i);
      }
      LandedAt(c, moves, m, r, i);
    }
    forall x: nat | x < TOTAL && !Written(c, moves, x) ensures r[x] == m[x] {
      OtherCopied(c, moves, m, m1, r, x);
    }
    CopiedAll(c, moves, m, r);
  }

  ghost predicate Landed(c: Config, moves: seq<Move>, m: seq<Byte>, r: seq<Byte>, i: nat)
    requires AllInside(c, moves) && |m| == |r| == TOTAL && i < |moves|
  {
    r[To(c, moves[i])..To(c, moves[i]) + moves[i].n] == m[From(c, moves[i])..From(c, moves[i]) + moves[i].n]
  }

  lemma LandedAt(c: Config, moves: seq<Move>, m: seq<Byte>, r: seq<Byte>, i: nat)
    requires AllInside(c, moves) && |m| == |r| == TOTAL && i < |moves|
    requires Inside(c, moves[i]) && To(c, moves[i]) + moves[i].n <= TOTAL && From(c, moves[i]) + moves[i].n <= TOTAL
    requires r[To(c, moves[i])..To(c, moves[i]) + moves[i].n] == m[From(c, moves[i])..From(c, moves[i]) + moves[i].n]
    ensures Landed(c, moves, m, r, i)
  {
    hide Inside, From, To;
  }

  lemma CopiedAll(c: Config, moves: seq<Move>, m: seq<Byte>, r: seq<Byte>)
    requires AllInside(c, moves) && |m| == |r| == TOTAL
    requires forall i: nat | i < |moves| :: Landed(c, moves, m, r, i)
    requires forall x: nat | x < TOTAL && !Written(c, moves, x) :: r[x] == m[x]
    ensures AllCopied(c, moves, m, r)
  {
    hide Inside, From, To, Written;
    forall i | 0 <= i < |moves|
      ensures Inside(c, moves[i]) && To(c, moves[i]) + moves[i].n <= TOTAL && From(c, moves[i]) + moves[i].n <= TOTAL
      ensures r[To(c, moves[i])..To(c, moves[i]) + moves[i].n] == m[From(c, moves[i])..From(c, moves[i]) + moves[i].n]
    {
      MoveInside(c, moves, i);
      assert Landed(c, moves, m, r, i);
    }
  }

  lemma MoveInside(c: Config, moves: seq<Move>, i: nat)
    requires AllInside(c, moves) && i < |moves|
    ensures Inside(c, moves[i]) && To(c, moves[i]) + moves[i].n <= TOTAL && From(c, moves[i]) + moves[i].n <= TOTAL
  {
    assert moves[i] in moves;
  }

  lemma FirstCopied(c: Config, moves: seq<Move>, m: seq<Byte>, m1: seq<Byte>, r: seq<Byte>)
    requires moves != [] && AllInside(c, moves) && Apart(c, moves) && AllInside(c, moves[1..]) && Inside(c, moves[0])
    requires |m| == |m1| == |r| == TOTAL
    requires Copied(m, m1, From(c, moves[0]), To(c, moves[0]), moves[0].n) && AllCopied(c, moves[1..], m1, r)
    ensures r[To(c, moves[0])..To(c, moves[0]) + moves[0].n] == m[From(c, moves[0])..From(c, moves[0]) + moves[0].n]
  {
    hide Inside, From, To, Apart, AllCopied;
    FirstStays(c, moves, m1, r);
  }

  lemma OtherCopied(c: Config, moves: seq<Move>, m: seq<Byte>, m1: seq<Byte>, r: seq<Byte>, x: nat)
    requires moves != [] && AllInside(c, moves) && AllInside(c, moves[1..]) && Inside(c, moves[0])
    requires |m| == |m1| == |r| == TOTAL && x < TOTAL && !Written(c, moves, x)
    requires Copied(m, m1, From(c, moves[0]), To(c, moves[0]), moves[0].n) && AllCopied(c, moves[1..], m1, r)
    ensures r[x] == m[x]
  {
    hide Inside, From, To, Written;
    OthersStand(c, moves, x);
  }

  lemma FirstStays(c: Config, moves: seq<Move>, m1: seq<Byte>, r: seq<Byte>)
    requires moves != [] && AllInside(c, moves) && Apart(c, moves) && AllInside(c, moves[1..]) && Inside(c, moves[0])
    requires |m1| == |r| == TOTAL && AllCopied(c, moves[1..], m1, r)
    ensures var d, n := To(c, moves[0]), moves[0].n; r[d..d + n] == m1[d..d + n]
  {
    var d, n, rest := To(c, moves[0]), moves[0].n, moves[1..];
    forall x | d <= x < d + n ensures r[x] == m1[x] {
      forall j | 0 <= j < |rest| ensures rest[j] in moves && !(To(c, rest[j]) <= x < To(c, rest[j]) + rest[j].n) {
        assert rest[j] == moves[j + 1] && moves[j + 1] in moves;
        hide Inside, From, To;
        assert Clear(d, n, To(c, moves[j + 1]), moves[j + 1].n);
      }
      hide Inside, From, To;
      assert !Written(c, rest, x);
    }
    hide Inside, From, To;
    StretchStands(m1, r, d, n);
  }

  lemma RestFrom(c: Config, moves: seq<Move>, m: seq<Byte>, m1: seq<Byte>, r: seq<Byte>, i: nat)
    requires moves != [] && AllInside(c, moves) && Apart(c, moves) && AllInside(c, moves[1..]) && Inside(c, moves[0])
    requires |m| == |m1| == |r| == TOTAL && 0 < i < |moves| && Inside(c, moves[i])
    requires Copied(m, m1, From(c, moves[0]), To(c, moves[0]), moves[0].n) && AllCopied(c, moves[1..], m1, r)
    ensures r[To(c, moves[i])..To(c, moves[i]) + moves[i].n] == m[From(c, moves[i])..From(c, moves[i]) + moves[i].n]
  {
    hide Inside, From, To, Written;
    var s, d, n, j := From(c, moves[i]), To(c, moves[i]), moves[i].n, i - 1;
    assert moves[1..][j] == moves[i];
    ApartFrom(c, moves, i);
    hide Apart;
    StretchStands(m, m1, s, n);
  }

  lemma ApartFrom(c: Config, moves: seq<Move>, i: nat)
    requires AllInside(c, moves) && Apart(c, moves) && 0 < i < |moves|
    ensures Inside(c, moves[0]) && Inside(c, moves[i]) && From(c, moves[i]) + moves[i].n <= TOTAL && To(c, moves[i]) + moves[i].n <= TOTAL
    ensures Clear(To(c, moves[0]), moves[0].n, From(c, moves[i]), moves[i].n)
  {
    assert moves[0] in moves && moves[i] in moves;
    hide Inside, From, To, Clear;
  }

  lemma OthersStand(c: Config, moves: seq<Move>, x: nat)
    requires moves != [] && AllInside(c, moves) && AllInside(c, moves[1..]) && Inside(c, moves[0]) && !Written(c, moves, x)
    ensures !(To(c, moves[0]) <= x < To(c, moves[0]) + moves[0].n) && !Written(c, moves[1..], x)
  {
    var rest := moves[1..];
    forall j | 0 <= j < |rest| ensures rest[j] in rest && !(To(c, rest[j]) <= x < To(c, rest[j]) + rest[j].n) {
      assert rest[j] == moves[j + 1] && rest[j] in rest && moves[j + 1] in moves;
      hide Inside, To;
    }
    assert moves[0] in moves;
    hide Inside, To;
  }

  // --------------------------------------------- a set from its fields

  /** The fields of a PaRAM set (SPRUH91D section 16.2.3), the indices as signed numbers. */
  datatype Fields = Fields(
    src: nat, dst: nat, aCnt: nat, bCnt: nat, cCnt: nat,
    srcB: int, dstB: int, srcC: int, dstC: int, reload: nat, link: nat,
    tcc: nat, fifoWidth: nat, early: bool, abSync: bool, fixed: bool,
    interrupt: bool, eachInterrupt: bool, chain: bool, eachChain: bool)

  predicate Index(x: int) { -0x8000 <= x < 0x8000 }

  predicate InRange(f: Fields) {
    && f.src < WORD && f.dst < WORD && 0 < f.aCnt < 0x10000 && 0 < f.bCnt < 0x10000 && 0 < f.cCnt < 0x10000
    && Index(f.srcB) && Index(f.dstB) && Index(f.srcC) && Index(f.dstC)
    && f.reload < 0x10000 && (f.link == 0xffff || (f.link < 0x10000 && f.link % 0x4000 % 32 == 0 && f.link % 0x4000 < 0x1000))
    && f.tcc < 32 && f.fifoWidth <= 5
  }

  function Half(x: int): (r: int) { if x < 0 then x + 0x10000 else x }

  function If(b: bool, weight: nat): nat { if b then weight else 0 }

  /** The option word: SYNCDIM 2, STATIC 3, FWID 8-10, TCCMODE 11, TCC 12-17, TCINTEN 20, ITCINTEN 21, TCCHEN 22, ITCCHEN 23. */
  function Options(f: Fields): nat {
    If(f.abSync, 4) + If(f.fixed, 8) + f.fifoWidth * 0x100 + If(f.early, 0x800) + f.tcc * 0x1000
    + If(f.interrupt, 0x100000) + If(f.eachInterrupt, 0x200000) + If(f.chain, 0x400000) + If(f.eachChain, 0x800000)
  }

  /** The eight words of the set. */
  function Pack(f: Fields): Param
    requires InRange(f)
  {
    Param(Options(f), f.src, f.aCnt + f.bCnt * 0x10000, f.dst, Half(f.srcB) + Half(f.dstB) * 0x10000,
          f.link + f.reload * 0x10000, Half(f.srcC) + Half(f.dstC) * 0x10000, f.cCnt)
  }

  lemma TwoHalves(low: nat, high: nat)
    requires low < 0x10000 && high < 0x10000
    ensures (low + high * 0x10000) % 0x10000 == low && (low + high * 0x10000) / 0x10000 == high && low + high * 0x10000 < WORD
  {
    DivUnique(low + high * 0x10000, 0x10000, high, low);
  }

  lemma SignedHalf(x: int)
    requires Index(x)
    ensures 0 <= Half(x) < 0x10000 && Signed(Half(x)) == x
  {
  }

  /** The engine reads back every field as it was given. */
  lemma PackReads(f: Fields)
    requires InRange(f)
    ensures var p := Pack(f);
            && p.ACnt() == f.aCnt && p.BCnt() == f.bCnt && p.CCnt() == f.cCnt
            && p.SrcB() == f.srcB && p.DstB() == f.dstB && p.SrcC() == f.srcC && p.DstC() == f.dstC
            && p.Reload() == f.reload && p.Link() == f.link && p.src == f.src && p.dst == f.dst
            && p.Tcc() == f.tcc && p.AbSync() == f.abSync && p.Static() == f.fixed
            && p.Bit(OPT_TCINTEN) == f.interrupt && p.Bit(OPT_ITCINTEN) == f.eachInterrupt
            && p.Bit(OPT_TCCHEN) == f.chain && p.Bit(OPT_ITCCHEN) == f.eachChain
            && ParamOk(p) && ValidParam(p)
  {
    TwoHalves(f.aCnt, f.bCnt);
    TwoHalves(f.link, f.reload);
    SignedHalf(f.srcB);
    SignedHalf(f.dstB);
    SignedHalf(f.srcC);
    SignedHalf(f.dstC);
    TwoHalves(Half(f.srcB), Half(f.dstB));
    TwoHalves(Half(f.srcC), Half(f.dstC));
    OptionsRead(f);
    hide Options, Half, Signed, If;
  }

  /** `n` values of a word at weight `w`. */
  function Field(v: nat, w: nat, n: nat): nat requires w > 0 && n > 0 { v / w % n }

  lemma OptionsRead(f: Fields)
    requires InRange(f)
    ensures var v := Options(f);
            && LegalOpt(v) && v % 4 == 0 && v / 0x1000 % 64 == f.tcc
            && (v / 4 % 2 == 1) == f.abSync && (v / 8 % 2 == 1) == f.fixed
            && (v / 0x100000 % 2 == 1) == f.interrupt && (v / 0x200000 % 2 == 1) == f.eachInterrupt
            && (v / 0x400000 % 2 == 1) == f.chain && (v / 0x800000 % 2 == 1) == f.eachChain
  {
    LowFields(f);
    MidFields(f);
    HighFields(f);
    hide Options, If;
    var v := Options(f);
    LegalFrom(v);
  }

  lemma LowFields(f: Fields)
    requires InRange(f)
    ensures var v := Options(f);
            v % 4 == 0 && Field(v, 4, 2) == If(f.abSync, 1) && Field(v, 8, 2) == If(f.fixed, 1) && Field(v, 16, 16) == 0
  {
    var v, a, x, w, e, t, top := Parts(f);
    hide *;
    var mid := w + 8 * e + 16 * t + 0x1000 * top;
    Digit(v, 4, 0, a, 2, x + 32 * mid);
    Digit(v, 8, 4 * a, x, 2, 16 * mid);
    Digit(v, 16, 4 * a + 8 * x, 0, 16, mid);
  }

  lemma MidFields(f: Fields)
    requires InRange(f)
    ensures var v := Options(f);
            Field(v, 0x100, 8) == f.fifoWidth && Field(v, 0x1000, 64) == f.tcc && Field(v, 0x40000, 4) == 0
  {
    var v, a, x, w, e, t, top := Parts(f);
    hide *;
    Digit(v, 0x100, 4 * a + 8 * x, w, 8, e + 2 * t + 0x200 * top);
    Digit(v, 0x1000, 4 * a + 8 * x + 0x100 * w + 0x800 * e, t, 64, 4 * top);
    Digit(v, 0x40000, 4 * a + 8 * x + 0x100 * w + 0x800 * e + 0x1000 * t, 0, 4, top);
  }

  lemma HighFields(f: Fields)
    requires InRange(f)
    ensures var v := Options(f);
            && v < 0x100_0000
            && Field(v, 0x100000, 2) == If(f.interrupt, 1) && Field(v, 0x200000, 2) == If(f.eachInterrupt, 1)
            && Field(v, 0x400000, 2) == If(f.chain, 1) && Field(v, 0x800000, 2) == If(f.eachChain, 1)
  {
    var v, a, x, w, e, t, top := Parts(f);
    var i, j, c, k := If(f.interrupt, 1), If(f.eachInterrupt, 1), If(f.chain, 1), If(f.eachChain, 1);
    hide *;
    IfOne(f.interrupt);
    IfOne(f.eachInterrupt);
    IfOne(f.chain);
    IfOne(f.eachChain);
    TopFour(v, i, j, c, k);
  }

  lemma TopFour(v: nat, i: nat, j: nat, c: nat, k: nat)
    requires i < 2 && j < 2 && c < 2 && k < 2
    requires 0 <= v - 0x100000 * (i + 2 * j + 4 * c + 8 * k) < 0x40000
    ensures Field(v, 0x100000, 2) == i && Field(v, 0x200000, 2) == j && Field(v, 0x400000, 2) == c && Field(v, 0x800000, 2) == k
  {
    hide *;
    var low: nat := v - 0x100000 * (i + 2 * j + 4 * c + 8 * k);
    TopTwo(v, low, i, j, c + 2 * k, 0x100000);
    TopTwo(v, low + 0x100000 * i + 0x200000 * j, c, k, 0, 0x400000);
  }

  lemma TopTwo(v: nat, low: nat, d: nat, e: nat, high: nat, weight: nat)
    requires low < weight && d < 2 && e < 2 && v == low + weight * d + 2 * weight * e + 4 * weight * high
    ensures Field(v, weight, 2) == d && Field(v, 2 * weight, 2) == e
  {
    hide *;
    assert weight * 2 * (e + 2 * high) == 2 * weight * e + 4 * weight * high;
    TopDigits(v, low, d, e + 2 * high, weight);
    assert weight * d < 2 * weight;
    assert 2 * weight * 2 * high == 4 * weight * high && low + weight * d < 2 * weight;
    TopDigits(v, low + weight * d, e, high, 2 * weight);
  }

  lemma TopDigits(v: nat, low: nat, d: nat, high: nat, weight: nat)
    requires low < weight && d < 2 && v == low + weight * d + weight * 2 * high
    ensures Field(v, weight, 2) == d
  {
    assert weight * (d + 2 * high) == weight * d + weight * 2 * high;
    hide *;
    Digit(v, weight, low, d, 2, high);
  }

  lemma Parts(f: Fields) returns (v: nat, a: nat, x: nat, w: nat, e: nat, t: nat, top: nat)
    requires InRange(f)
    ensures v == Options(f) && a == If(f.abSync, 1) && x == If(f.fixed, 1) && w == f.fifoWidth && t == f.tcc
    ensures a < 2 && x < 2 && w <= 5 && e < 2 && t < 32
    ensures top == If(f.interrupt, 1) + 2 * If(f.eachInterrupt, 1) + 4 * If(f.chain, 1) + 8 * If(f.eachChain, 1) < 16
    ensures v == 4 * a + 8 * x + 0x100 * w + 0x800 * e + 0x1000 * t + 0x100000 * top && v % 4 == 0
  {
    v, a, x, w, e, t := Options(f), If(f.abSync, 1), If(f.fixed, 1), f.fifoWidth, If(f.early, 1), f.tcc;
    top := If(f.interrupt, 1) + 2 * If(f.eachInterrupt, 1) + 4 * If(f.chain, 1) + 8 * If(f.eachChain, 1);
    Weighed(f);
    SumMeans(v, a, x, w, e, t, top);
    IfOne(f.abSync);
    IfOne(f.fixed);
    IfOne(f.early);
    TopSmall(f);
    assert f.tcc < 32 && f.fifoWidth <= 5;
    hide *;
  }

  lemma SumMeans(v: nat, a: nat, x: nat, w: nat, e: nat, t: nat, top: nat)
    requires v == Sum(a, x, w, e, t, top)
    ensures v == 4 * a + 8 * x + 0x100 * w + 0x800 * e + 0x1000 * t + 0x100000 * top
  {
  }

  lemma TopSmall(f: Fields)
    ensures If(f.interrupt, 1) + 2 * If(f.eachInterrupt, 1) + 4 * If(f.chain, 1) + 8 * If(f.eachChain, 1) < 16
  {
    IfOne(f.interrupt);
    IfOne(f.eachInterrupt);
    IfOne(f.chain);
    IfOne(f.eachChain);
    hide If;
  }

  lemma Times(b: bool, n: nat)
    ensures If(b, n) == n * If(b, 1)
  {
  }

  /** The option word as a sum of its fields, the four top bits together. */
  function Sum(a: nat, x: nat, w: nat, e: nat, t: nat, top: nat): nat {
    4 * a + 8 * x + 0x100 * w + 0x800 * e + 0x1000 * t + 0x100000 * top
  }

  lemma Weighed(f: Fields)
    ensures Options(f) == Sum(If(f.abSync, 1), If(f.fixed, 1), f.fifoWidth, If(f.early, 1), f.tcc,
                              If(f.interrupt, 1) + 2 * If(f.eachInterrupt, 1) + 4 * If(f.chain, 1) + 8 * If(f.eachChain, 1))
  {
    Times(f.abSync, 4);
    Times(f.fixed, 8);
    Times(f.early, 0x800);
    Times(f.interrupt, 0x100000);
    Times(f.eachInterrupt, 0x200000);
    Times(f.chain, 0x400000);
    Times(f.eachChain, 0x800000);
    hide If;
  }

  lemma IfOne(b: bool)
    ensures If(b, 1) == if b then 1 else 0
  {
  }

  lemma Digit(v: nat, weight: nat, low: nat, d: nat, base: nat, high: nat)
    requires low < weight && d < base && v == low + weight * (d + base * high)
    ensures Field(v, weight, base) == d
  {
    assert weight * (d + base * high) == (d + base * high) * weight;
    DivUnique(v, weight, d + base * high, low);
    assert d + base * high == high * base + d;
    DivUnique(d + base * high, base, high, d);
  }

  lemma LegalFrom(v: nat)
    requires v < 0x0100_0000 && v / 0x40000 % 4 == 0 && v / 16 % 16 == 0 && v / 0x1000 % 64 < 32 && v / 0x100 % 8 <= 5
    ensures LegalOpt(v)
  {
  }

  /** Every legal set is one built from fields. */
  lemma EverySetPacks(p: Param) returns (f: Fields)
    requires ParamOk(p) && ValidParam(p)
    ensures InRange(f) && Pack(f) == p
  {
    f := Fields(p.src, p.dst, p.ACnt(), p.BCnt(), p.CCnt(), p.SrcB(), p.DstB(), p.SrcC(), p.DstC(), p.Reload(), p.Link(),
                p.Tcc(), Field(p.opt, 0x100, 8), p.Bit(0x800), p.Bit(4), p.Bit(8),
                p.Bit(0x100000), p.Bit(0x200000), p.Bit(0x400000), p.Bit(0x800000));
    Rejoin(p.cnt);
    Rejoin(p.bidx);
    Rejoin(p.link);
    Rejoin(p.cidx);
    HalfBack(p.bidx % 0x10000);
    HalfBack(p.bidx / 0x10000);
    HalfBack(p.cidx % 0x10000);
    HalfBack(p.cidx / 0x10000);
    assert p.ccnt % 0x10000 == p.ccnt;
    assert InRange(f);
    hide Options, Half, Signed, If, p.Bit;
    BitBack(p, 4);
    BitBack(p, 8);
    BitBack(p, 0x800);
    BitBack(p, 0x100000);
    BitBack(p, 0x200000);
    BitBack(p, 0x400000);
    BitBack(p, 0x800000);
    OptionsBack(f, p.opt);
    hide Field;
  }

  lemma Rejoin(v: nat)
    requires v < WORD
    ensures v % 0x10000 + v / 0x10000 * 0x10000 == v && v / 0x10000 < 0x10000
  {
  }

  lemma HalfBack(x: nat)
    requires x < 0x10000
    ensures Half(Signed(x)) == x && Index(Signed(x))
  {
  }

  lemma OptionsBack(f: Fields, v: nat)
    requires LegalOpt(v) && v % 4 == 0 && f.fifoWidth == Field(v, 0x100, 8) && f.tcc == Field(v, 0x1000, 64)
    requires If(f.abSync, 1) == Field(v, 4, 2) && If(f.fixed, 1) == Field(v, 8, 2) && If(f.early, 1) == Field(v, 0x800, 2)
    requires If(f.interrupt, 1) == Field(v, 0x100000, 2) && If(f.eachInterrupt, 1) == Field(v, 0x200000, 2)
    requires If(f.chain, 1) == Field(v, 0x400000, 2) && If(f.eachChain, 1) == Field(v, 0x800000, 2)
    ensures Options(f) == v
  {
    LegalFields(v);
    hide *;
    Weighed(f);
    SumOfFields(v);
  }

  lemma LegalFields(v: nat)
    requires LegalOpt(v)
    ensures v < 0x100_0000 && Field(v, 16, 16) == 0 && Field(v, 0x40000, 4) == 0
  {
  }

  lemma BitBack(p: Param, w: nat)
    requires w > 0
    ensures If(p.Bit(w), 1) == Field(p.opt, w, 2)
  {
  }

  lemma SumOfFields(v: nat)
    requires v < 0x100_0000 && v % 4 == 0 && Field(v, 16, 16) == 0 && Field(v, 0x40000, 4) == 0
    ensures v == Sum(Field(v, 4, 2), Field(v, 8, 2), Field(v, 0x100, 8), Field(v, 0x800, 2), Field(v, 0x1000, 64),
                     Field(v, 0x100000, 2) + 2 * Field(v, 0x200000, 2) + 4 * Field(v, 0x400000, 2) + 8 * Field(v, 0x800000, 2))
  {
    hide Field;
    NextField(v, 4, 2);
    NextField(v, 8, 2);
    NextField(v, 16, 16);
    NextField(v, 0x100, 8);
    NextField(v, 0x800, 2);
    NextField(v, 0x1000, 64);
    NextField(v, 0x40000, 4);
    NextField(v, 0x100000, 2);
    NextField(v, 0x200000, 2);
    NextField(v, 0x400000, 2);
    NextField(v, 0x800000, 2);
    assert v / 0x1000000 == 0 && v == 4 * (v / 4);
  }

  lemma NextField(v: nat, w: nat, n: nat)
    requires w > 0 && n > 0
    ensures w * n > 0 && v / w == n * (v / (w * n)) + Field(v, w, n)
  {
    hide *;
    var q, r := v / w, v % w;
    var q2, r2 := q / n, q % n;
    Parted(v, w);
    Parted(q, n);
    Regrouped(q, q2, n, r2, w, r);
    DivUnique(v, w * n, q2, r2 * w + r);
    FieldIs(v, w, n);
  }

  lemma Parted(v: nat, w: nat)
    requires w > 0
    ensures v == v / w * w + v % w && v % w < w
  {
  }

  lemma FieldIs(v: nat, w: nat, n: nat)
    requires w > 0 && n > 0
    ensures Field(v, w, n) == v / w % n
  {
  }

  lemma Regrouped(q: nat, a: nat, n: nat, b: nat, w: nat, c: nat)
    requires q == a * n + b && b < n && c < w
    ensures q * w + c == a * (w * n) + (b * w + c) && 0 <= b * w + c < w * n
  {
    assert (a * n + b) * w == a * n * w + b * w;
    assert a * n * w == a * (n * w);
    var rest: nat := n - b - 1;
    Multiple(rest, w);
    assert n * w == b * w + rest * w + w;
  }

  // --------------------------------------------------- the grid, byte by byte

  /** The distance between two rows: from the last array of one, or under AB-sync from its first. */
  function SrcRow(f: Fields): int { if f.abSync then f.srcC else (f.bCnt - 1) * f.srcB + f.srcC }
  function DstRow(f: Fields): int { if f.abSync then f.dstC else (f.bCnt - 1) * f.dstB + f.dstC }

  function SrcAt(f: Fields, c: nat, b: nat): nat { (f.src + (c * SrcRow(f) + b * f.srcB)) % WORD }
  function DstAt(f: Fields, c: nat, b: nat): nat { (f.dst + (c * DstRow(f) + b * f.dstB)) % WORD }

  /** The arrays of the grid, row by row. */
  function Arrays(f: Fields, channel: nat): seq<Move>
    requires f.bCnt > 0
  {
    seq(f.bCnt * f.cCnt, n requires 0 <= n < f.bCnt * f.cCnt =>
          Move(channel, SrcAt(f, n / f.bCnt, n % f.bCnt), DstAt(f, n / f.bCnt, n % f.bCnt), f.aCnt))
  }

  /** A set that walks a grid. */
  predicate Walking(f: Fields) { InRange(f) && !f.fixed && (f.abSync || f.reload == f.bCnt) }

  lemma CellsAre(f: Fields, c: nat, b: nat)
    requires InRange(f)
    ensures Cell(Pack(f), c, b) == (SrcAt(f, c, b), DstAt(f, c, b))
  {
    PackReads(f);
    assert SrcStep(Pack(f)) == SrcRow(f) && DstStep(Pack(f)) == DstRow(f) by {
      hide Pack, InRange;
    }
    hide SrcStep, DstStep, SrcRow, DstRow, Pack, InRange;
  }

  lemma ArraysAre(f: Fields, channel: nat)
    requires Walking(f)
    ensures Gridded(Pack(f)) && f.bCnt > 0 && GridMoves(Pack(f), channel) == Arrays(f, channel)
  {
    hide *;
    WalkingParts(f);
    var p, a := Pack(f), Arrays(f, channel);
    var g := GridMoves(p, channel);
    Lengths(f, p, channel);
    forall n | 0 <= n < |a| ensures g[n] == a[n] {
      NthMove(p, channel, n);
      CellMoves(f, channel, n);
    }
  }

  lemma WalkingParts(f: Fields)
    requires Walking(f)
    ensures InRange(f) && f.bCnt > 0 && Gridded(Pack(f)) && Pack(f).BCnt() == f.bCnt && Pack(f).CCnt() == f.cCnt && Pack(f).ACnt() == f.aCnt
  {
    PackReads(f);
  }

  /** Row and column. */
  lemma CellMoves(f: Fields, channel: nat, n: nat)
    requires Walking(f) && n < |Arrays(f, channel)|
    ensures Pack(f).BCnt() > 0 && f.bCnt > 0 && Arrays(f, channel)[n] == CellMove(Pack(f), channel, n)
  {
    hide *;
    WalkingParts(f);
    ArrayIs(f, channel, n);
    CellsAre(f, n / f.bCnt, n % f.bCnt);
    CellMoveIs(Pack(f), channel, n);
  }

  lemma CellMoveIs(p: Param, channel: nat, n: nat)
    requires p.BCnt() > 0
    ensures var cell := Cell(p, n / p.BCnt(), n % p.BCnt()); CellMove(p, channel, n) == Move(channel, cell.0, cell.1, p.ACnt())
  {
    hide Cell, p.BCnt, p.ACnt;
  }

  lemma Lengths(f: Fields, p: Param, channel: nat)
    requires f.bCnt > 0 && Gridded(p) && p.BCnt() == f.bCnt && p.CCnt() == f.cCnt
    ensures |GridMoves(p, channel)| == |Arrays(f, channel)|
  {
    hide Gridded, p.BCnt, p.CCnt, p.ACnt, Nth, SrcAt, DstAt;
  }

  lemma ArrayIs(f: Fields, channel: nat, n: nat)
    requires f.bCnt > 0 && n < |Arrays(f, channel)|
    ensures Arrays(f, channel)[n] == Move(channel, SrcAt(f, n / f.bCnt, n % f.bCnt), DstAt(f, n / f.bCnt, n % f.bCnt), f.aCnt)
  {
    hide SrcAt, DstAt;
  }

  function CellMove(p: Param, channel: nat, n: nat): Move
    requires p.BCnt() > 0
  {
    var cell := Cell(p, n / p.BCnt(), n % p.BCnt());
    Move(channel, cell.0, cell.1, p.ACnt())
  }

  lemma NthMove(p: Param, channel: nat, n: nat)
    requires Gridded(p) && n < |GridMoves(p, channel)|
    ensures GridMoves(p, channel)[n] == CellMove(p, channel, n)
  {
    hide Gridded, p.BCnt, p.CCnt, p.ACnt, Cell, p.SrcB, p.DstB, Nth;
    NthIsCell(p, n);
  }

  lemma NthIsCell(p: Param, n: nat)
    requires Gridded(p)
    ensures p.BCnt() > 0 && Nth(p, n) == Cell(p, n / p.BCnt(), n % p.BCnt())
  {
    hide Gridded, p.BCnt, Cell;
  }

  /** Moves within memory are all taken, rehearsed and real. */
  lemma {:induction false} InsideTaken<D>(port: Port<D>, b: Bus<D>, moves: seq<Move>)
    requires BusOk(b) && AllInside(b.config, moves)
    ensures Carry(port, b, moves, false).ok && Carry(port, b, moves, true).ok
    ensures Carry(port, b, moves, true).bus.device == b.device
    decreases |moves|
  {
    if moves == [] {
      CarryNone(port, b, true);
      CarryNone(port, b, false);
    } else {
      assert moves[0] in moves && (forall x | x in moves[1..] :: x in moves);
      assert AllInside(b.config, moves[1..]) && Inside(b.config, moves[0]);
      hide *;
      var b1 := CarriesOn(port, b, moves);
      InsideTaken(port, b1, moves[1..]);
      InsideTaken(port, b, moves[1..]);
    }
  }

  /** An event whose one request moves bytes within memory is served. */
  lemma StepServed<D>(port: Port<D>, s: Engine, b: Bus<D>, channel: nat, k: nat, r: Run<D>)
    requires BusOk(b) && BusOk(r.bus) && r.bus.config == b.config && Valid(r.engine) && Ready(s, channel) && k < Events(s.param[channel])
    requires Reached(port, s, b, channel, k, r) && AllInside(b.config, GridMoves(s.param[channel], channel))
    ensures Signal(port, r.engine, r.bus, channel).ok
  {
    var p, t, u, e := s.param[channel], r.engine, Latched(r.engine, channel), Event(Dma, channel);
    assert channel in t.eer && |s.qchmap| == QCHANNELS;
    SignalParts(port, t, r.bus, channel);
    StandsLatched(s, t, channel, k);
    hide Reached, Stands, Valid, Latched, Signal, Rehearses, Events, Gridded, Service, Carry, AllInside;
    StandsNext(s, u, e, channel, k);
    NothingSetOff(s, u, channel, k);
    PlanOnce(u, channel, 0);
    hide Alone, Completed, SetsOff, ValidParam, QuietLink, Linked, Relinks;
    ServiceIsPlan(port, u, r.bus, [e], 0, false);
    ServiceIsPlan(port, u, r.bus, [e], 0, true);
    FirstMovesGrow(p, channel, k);
    assert OwnMoves(u, channel) == Tagged(channel, MovesOf(After(p, k)), After(p, k).ACnt());
    OwnInGrid(p, channel, k, OwnMoves(u, channel), b.config);
    hide OwnMoves, Tagged, MovesOf, FirstMoves;
    InsideTaken(port, r.bus, OwnMoves(u, channel));
  }

  lemma OwnInGrid(p: Param, channel: nat, k: nat, own: seq<Move>, c: Config)
    requires Gridded(p) && k < Events(p) && AllInside(c, GridMoves(p, channel))
    requires FirstMoves(p, channel, k + 1) == FirstMoves(p, channel, k) + own
    ensures AllInside(c, own)
  {
    var first, grid := FirstMoves(p, channel, k + 1), GridMoves(p, channel);
    FirstInGrid(p, channel, k + 1);
    hide FirstMoves, GridMoves, Gridded, Inside, Events;
    forall m | m in own ensures Inside(c, m) {
      assert m in first;
      var i :| 0 <= i < |first| && first[i] == m;
      assert grid[i] == m && grid[i] in grid;
    }
  }

  lemma FirstInGrid(p: Param, channel: nat, k: nat)
    requires Gridded(p) && k <= Events(p)
    ensures var first, grid := FirstMoves(p, channel, k), GridMoves(p, channel);
            |first| <= |grid| && forall i | 0 <= i < |first| :: first[i] == grid[i]
  {
    MovesTheGrid(p, k);
    CountMost(p, k);
    hide Gridded, Events, Count, MovedBy, Nth, p.ACnt, p.BCnt, p.CCnt;
  }

  lemma CountMost(p: Param, k: nat)
    requires k <= Events(p) && p.BCnt() > 0
    ensures Count(p, k) <= p.BCnt() * p.CCnt()
  {
    CountAll(p);
    if p.AbSync() {
      Multiple(p.CCnt() - k, p.BCnt());
      assert (p.CCnt() - k) * p.BCnt() == p.CCnt() * p.BCnt() - k * p.BCnt();
    }
    hide p.AbSync, p.BCnt, p.CCnt;
  }

  /** All the events of a transfer within memory are served. */
  lemma {:induction false} BurstServed<D>(port: Port<D>, s: Engine, b: Bus<D>, channel: nat, k: nat)
    requires BusOk(b) && Ready(s, channel) && k <= Events(s.param[channel]) && AllInside(b.config, GridMoves(s.param[channel], channel))
    ensures Burst(port, s, b, channel, k).ok
  {
    hide Signal, Ready, Gridded, Events, AllInside, GridMoves;
    if k > 0 {
      BurstServed(port, s, b, channel, k - 1);
      BurstStands(port, s, b, channel, k - 1);
      var r := Burst(port, s, b, channel, k - 1);
      hide Reached;
      StepServed(port, s, b, channel, k - 1, r);
    }
  }

  /**
   A transfer within memory whose arrays keep clear of each other: its events are all served,
   every array of the destination grid then holds the bytes its source array held, and no other
   byte of memory has changed.
   */
  lemma WholeTransferBytes<D>(port: Port<D>, s: Engine, b: Bus<D>, channel: nat, f: Fields)
    requires BusOk(b) && Ready(s, channel) && Walking(f) && f.bCnt > 0 && s.param[channel] == Pack(f)
    requires AllInside(b.config, Arrays(f, channel)) && Apart(b.config, Arrays(f, channel))
    ensures var r := Burst(port, s, b, channel, if f.abSync then f.cCnt else f.cCnt * f.bCnt);
            && r.ok && Whole(s, r.engine, channel) && r.bus.device == b.device
            && AllCopied(b.config, Arrays(f, channel), Flat(b.store), Flat(r.bus.store))
  {
    assert StoreOk(b.store) && InRange(f);
    ArraysAre(f, channel);
    PackReads(f);
    assert Events(Pack(f)) == if f.abSync then f.cCnt else f.cCnt * f.bCnt;
    hide *;
    ReadyIs(s, channel);
    BurstServed(port, s, b, channel, Events(Pack(f)));
    WholeTransfer(port, s, b, channel);
    MovesCopy(port, b, Arrays(f, channel));
  }

  lemma ReadyIs(s: Engine, channel: nat)
    requires Ready(s, channel)
    ensures Valid(s) && channel < CHANNELS && channel < |s.param| == PARAMS && Gridded(s.param[channel])
  {
  }

  /** A finished transfer without a link leaves a null set: zeros but for the link, and the next event on the channel is refused. */
  lemma NullLinkStops<D>(port: Port<D>, s: Engine, t: Engine, b: Bus<D>, channel: nat)
    requires BusOk(b) && Ready(s, channel) && Valid(t) && Whole(s, t, channel) && channel in t.eer && s.param[channel].Link() == 0xffff
    ensures t.param[channel] == Param(0, 0, 0, 0, 0, 0xffff, 0, 0)
    ensures Signal(port, t, b, channel) == Run(false, t, b)
  {
    var l, e := Latched(t, channel), Event(Dma, channel);
    assert |t.param| == PARAMS;
    SignalParts(port, t, b, channel);
    assert l.param == t.param && SetOf(l, e) == channel && !ValidParam(l.param[channel]);
    assert e in [e];
    hide Valid, Latched, Signal, Ready, Gridded, Events, Codes, Rehearses;
  }

  /** And a set that chains to its own channel does all that for one event. */
  lemma OneEventBytes<D>(port: Port<D>, s: Engine, b: Bus<D>, channel: nat, f: Fields)
    requires BusOk(b) && Valid(s) && channel < CHANNELS && channel in s.eer && SelfChained(s, channel)
    requires Walking(f) && f.bCnt > 0 && s.param[channel] == Pack(f)
    requires AllInside(b.config, Arrays(f, channel)) && Apart(b.config, Arrays(f, channel))
    ensures var r := Signal(port, s, b, channel);
            && r.ok && Whole(s, r.engine, channel) && r.bus.device == b.device
            && AllCopied(b.config, Arrays(f, channel), Flat(b.store), Flat(r.bus.store))
  {
    assert StoreOk(b.store) && |s.param| == PARAMS;
    ArraysAre(f, channel);
    hide *;
    MovesCopy(port, b, Arrays(f, channel));
    OneEventMovesAll(port, s, b, channel);
  }
}
