/**
 The DSP's memory as the EDMA bus sees it: the address map of `dsp_memory_span`, and a
 store that is either written at once or through a list of staged writes overlaid on it.
 The four memories are laid end to end in one sequence of bytes, so that two guest
 addresses alias exactly when they name the same offset.
 */
module Memory {
  import opened Common

  const L1D_SIZE: nat := 0x8000
  const L2_SIZE: nat := 0x40000
  const SHARED_SIZE: nat := 0x20000
  const SDRAM_SIZE: nat := 0x2000000
  const L2_AT: nat := L1D_SIZE
  const SHARED_AT: nat := L2_AT + L2_SIZE
  const SDRAM_AT: nat := SHARED_AT + SHARED_SIZE
  const TOTAL: nat := SDRAM_AT + SDRAM_SIZE

  /** What decides the map: how much of L1D is RAM, and whether SDRAM is enabled. */
  datatype Config = Config(l1dMode: nat, sdramOn: bool)

  function L1dRam(mode: nat): nat {
    if mode % 8 == 0 then 0x8000 else if mode % 8 == 1 then 0x7000
    else if mode % 8 == 2 then 0x6000 else if mode % 8 == 3 then 0x4000 else 0
  }

  predicate Within(address: nat, size: nat, base: nat, length: nat) {
    base <= address && address + size <= base + length
  }

  /** The offset in the store of `size` bytes at a guest address, if they are all in one memory. */
  function Span(c: Config, address: nat, size: nat): (o: Option<nat>)
    ensures o.Some? ==> 0 < size && o.value + size <= TOTAL
  {
    if size == 0 || address + size > 0x1_0000_0000 then None
    else if 0x00f00000 <= address < 0x00f08000 && address - 0x00f00000 + size <= L1dRam(c.l1dMode) then
      Some(address - 0x00f00000)
    else if 0x11f00000 <= address < 0x11f08000 && address - 0x11f00000 + size <= L1dRam(c.l1dMode) then
      Some(address - 0x11f00000)
    else if Within(address, size, 0x11800000, L2_SIZE) then Some(L2_AT + address - 0x11800000)
    else if Within(address, size, 0x00800000, L2_SIZE) then Some(L2_AT + address - 0x00800000)
    else if Within(address, size, 0x80000000, SHARED_SIZE) then Some(SHARED_AT + address - 0x80000000)
    else if c.sdramOn && 0xc0000000 <= address < 0xe0000000 && address + size <= 0xe0000000
            && (address - 0xc0000000) % SDRAM_SIZE + size <= SDRAM_SIZE then
      Some(SDRAM_AT + (address - 0xc0000000) % SDRAM_SIZE)
    else None
  }

  datatype Write = Write(at: nat, data: seq<Byte>)

  datatype Store =
    | Direct(bytes: seq<Byte>)
    | Staged(base: seq<Byte>, writes: seq<Write>)

  /** One write carried out. */
  function Poke(m: seq<Byte>, w: Write): (r: seq<Byte>)
    requires w.at + |w.data| <= |m|
    ensures |r| == |m|
    ensures forall k | 0 <= k < |m| :: r[k] == if w.at <= k < w.at + |w.data| then w.data[k - w.at] else m[k]
  {
    m[..w.at] + w.data + m[w.at + |w.data|..]
  }

  predicate Fits(m: seq<Byte>, ws: seq<Write>) {
    forall w | w in ws :: w.at + |w.data| <= |m|
  }

  /** All writes carried out in order. */
  function Apply(m: seq<Byte>, ws: seq<Write>): (r: seq<Byte>)
    requires Fits(m, ws)
    ensures |r| == |m|
    decreases |ws|
  {
    if ws == [] then m else Poke(Apply(m, ws[..|ws| - 1]), ws[|ws| - 1])
  }

  /** The part of a staged write that falls in a buffer read from offset `o`, copied over it. */
  function Overlay(bytes: seq<Byte>, o: nat, w: Write): (r: seq<Byte>)
    ensures |r| == |bytes|
  {
    seq(|bytes|, x requires 0 <= x < |bytes| =>
          if w.at <= o + x < w.at + |w.data| then w.data[o + x - w.at] else bytes[x])
  }

  function OverlayAll(bytes: seq<Byte>, o: nat, ws: seq<Write>): (r: seq<Byte>)
    ensures |r| == |bytes|
    decreases |ws|
  {
    if ws == [] then bytes else Overlay(OverlayAll(bytes, o, ws[..|ws| - 1]), o, ws[|ws| - 1])
  }

  ghost predicate StoreOk(s: Store) {
    match s
    case Direct(bytes) => |bytes| == TOTAL
    case Staged(base, writes) => |base| == TOTAL && Fits(base, writes)
  }

  /** The plain memory a store stands for. */
  ghost function Flat(s: Store): (r: seq<Byte>)
    requires StoreOk(s)
    ensures |r| == TOTAL
  {
    match s
    case Direct(bytes) => bytes
    case Staged(base, writes) => Apply(base, writes)
  }

  function View(s: Store, o: nat, n: nat): (r: seq<Byte>)
    requires StoreOk(s) && o + n <= TOTAL
    ensures |r| == n
  {
    match s
    case Direct(bytes) => bytes[o..o + n]
    case Staged(base, writes) => OverlayAll(base[o..o + n], o, writes)
  }

  function Put(s: Store, o: nat, data: seq<Byte>): (r: Store)
    requires StoreOk(s) && o + |data| <= TOTAL
    ensures StoreOk(r)
  {
    match s
    case Direct(bytes) => Direct(Poke(bytes, Write(o, data)))
    case Staged(base, writes) => Staged(base, writes + [Write(o, data)])
  }

  /** Overlaying a write on what was read is reading after the write. */
  lemma OverlayReads(m: seq<Byte>, o: nat, n: nat, w: Write)
    requires o + n <= |m| && w.at + |w.data| <= |m|
    ensures Overlay(m[o..o + n], o, w) == Poke(m, w)[o..o + n]
  {
    var window, poked := m[o..o + n], Poke(m, w);
    var r := Overlay(window, o, w);
    hide Poke;
    forall x | 0 <= x < n ensures r[x] == poked[o..o + n][x] {
      assert poked[o..o + n][x] == poked[o + x] && window[x] == m[o + x];
    }
  }

  lemma {:induction false} OverlayAllReads(m: seq<Byte>, o: nat, n: nat, ws: seq<Write>)
    requires o + n <= |m| && Fits(m, ws)
    ensures OverlayAll(m[o..o + n], o, ws) == Apply(m, ws)[o..o + n]
    decreases |ws|
  {
    if ws != [] {
      var front, w := ws[..|ws| - 1], ws[|ws| - 1];
      assert w in ws;
      OverlayAllReads(m, o, n, front);
      OverlayReads(Apply(m, front), o, n, w);
    }
  }

  /**
   The write buffer refines memory: reading through it gives the bytes that carrying out the
   staged writes in order would give, and staging a write stands for carrying it out.
   */
  lemma ViewIsFlat(s: Store, o: nat, n: nat)
    requires StoreOk(s) && o + n <= TOTAL
    ensures View(s, o, n) == Flat(s)[o..o + n]
  {
    if s.Staged? {
      OverlayAllReads(s.base, o, n, s.writes);
    }
  }

  lemma PutIsPoke(s: Store, o: nat, data: seq<Byte>)
    requires StoreOk(s) && o + |data| <= TOTAL
    ensures Flat(Put(s, o, data)) == Poke(Flat(s), Write(o, data))
  {
    if s.Staged? {
      var w := Write(o, data);
      assert (s.writes + [w])[..|s.writes|] == s.writes;
    }
  }

  /** The aliases of the map: both L2 windows, both L1D windows, and SDRAM every 32 MiB. */
  lemma Aliases(c: Config, k: nat, size: nat)
    ensures k + size <= L2_SIZE ==> Span(c, 0x00800000 + k, size) == Span(c, 0x11800000 + k, size)
    ensures k < 0x8000 ==> Span(c, 0x00f00000 + k, size) == Span(c, 0x11f00000 + k, size)
    ensures k % SDRAM_SIZE + size <= SDRAM_SIZE && k + SDRAM_SIZE + size <= 0x20000000 ==>
              Span(c, 0xc0000000 + k, size) == Span(c, 0xc0000000 + k + SDRAM_SIZE, size)
  {
    assert (k + SDRAM_SIZE) % SDRAM_SIZE == k % SDRAM_SIZE;
  }

  /** What of L1D the cache takes. */
  function L1dCache(mode: nat): nat {
    match mode % 8
    case 0 => 0 case 1 => 4 * 1024 case 2 => 8 * 1024 case 3 => 16 * 1024 case _ => 32 * 1024
  }

  /** The addresses with memory behind them: two windows on L1D less its cache, two on L2, shared RAM, and SDRAM once enabled. */
  predicate Backed(c: Config, a: nat) {
    || 0 <= a - 0x00f00000 < 32 * 1024 - L1dCache(c.l1dMode) || 0 <= a - 0x11f00000 < 32 * 1024 - L1dCache(c.l1dMode)
    || 0 <= a - 0x00800000 < 256 * 1024 || 0 <= a - 0x11800000 < 256 * 1024
    || 0 <= a - 0x80000000 < 128 * 1024 || (c.sdramOn && 0xc0000000 <= a < 0xe0000000)
  }

  /** Two addresses of one byte. */
  predicate SameByte(x: nat, y: nat) {
    || x == y
    || (x < 0x20000000 && y < 0x20000000 && (x - y == 0x11000000 || y - x == 0x11000000))
    || (x >= 0xc0000000 && y >= 0xc0000000 && (x - y) % (32 * 1024 * 1024) == 0)
  }

  /** Each byte of the map on its own: which addresses have one, and which have the same one. */
  lemma MapIs(c: Config, x: nat, y: nat)
    ensures Span(c, x, 1).Some? <==> Backed(c, x)
    ensures Backed(c, x) && Backed(c, y) ==> (Span(c, x, 1) == Span(c, y, 1) <==> SameByte(x, y))
  {
    OneByte(c, x);
    OneByte(c, y);
    if Backed(c, x) && Backed(c, y) && x >= 0xc0000000 && y >= 0xc0000000 {
      SameRest(x - 0xc0000000, y - 0xc0000000, SDRAM_SIZE);
    }
    hide Span, L1dCache;
  }

  lemma OneByte(c: Config, a: nat)
    ensures Span(c, a, 1).Some? <==> Backed(c, a)
    ensures Span(c, a, 1).Some? ==>
              Span(c, a, 1).value == if a < 0x00f00000 then a - 0x00800000 + L2_AT else if a < 0x11800000 then a - 0x00f00000
                                     else if a < 0x11f00000 then a - 0x11800000 + L2_AT else if a < 0x80000000 then a - 0x11f00000
                                     else if a < 0xc0000000 then a - 0x80000000 + SHARED_AT else SDRAM_AT + (a - 0xc0000000) % SDRAM_SIZE
  {
  }

  lemma SameRest(x: int, y: int, b: nat)
    requires b > 0
    ensures x % b == y % b <==> (x - y) % b == 0
  {
    var qx, rx, qy, ry := x / b, x % b, y / b, y % b;
    assert x - y == (qx - qy) * b + (rx - ry);
    if rx == ry {
      assert (x - y) == (qx - qy) * b;
      IntDivUnique(x - y, b, qx - qy, 0);
    } else if rx > ry {
      IntDivUnique(x - y, b, qx - qy, rx - ry);
    } else {
      assert x - y == (qx - qy - 1) * b + (rx - ry + b);
      IntDivUnique(x - y, b, qx - qy - 1, rx - ry + b);
    }
  }

  lemma IntDivUnique(n: int, b: nat, q: int, r: nat)
    requires r < b && n == q * b + r
    ensures n % b == r
  {
    var q', r' := n / b, n % b;
    assert (q' - q) * b == q' * b - q * b == r - r';
    Multiple(q' - q, b);
  }

  /** Byte `k` from `a` on is the byte at `k` from `o` on. */
  predicate At(c: Config, a: nat, o: nat, k: nat) { Span(c, a + k, 1) == Some(o + k) }

  /** A stretch is mapped as a whole exactly when its bytes are mapped one after the other. */
  lemma SpanIsBytes(c: Config, a: nat, n: nat, o: nat)
    ensures Span(c, a, n) == Some(o) <==> n > 0 && forall k: nat | k < n :: At(c, a, o, k)
  {
    if Span(c, a, n) == Some(o) {
      forall k: nat | k < n ensures At(c, a, o, k) {
        ByteOfSpan(c, a, n, k);
      }
    }
    if n > 0 && forall k: nat | k < n :: At(c, a, o, k) {
      assert At(c, a, o, 0) && At(c, a, o, n - 1);
      EndsOfSpan(c, a, n, o);
    }
    hide Span;
  }

  lemma ByteOfSpan(c: Config, a: nat, n: nat, k: nat)
    requires Span(c, a, n).Some? && k < n
    ensures Span(c, a + k, 1) == Some(Span(c, a, n).value + k)
  {
    if a >= 0xc0000000 {
      var x := a - 0xc0000000;
      DivUnique(x + k, SDRAM_SIZE, x / SDRAM_SIZE, x % SDRAM_SIZE + k);
    }
  }

  lemma EndsOfSpan(c: Config, a: nat, n: nat, o: nat)
    requires n > 0 && Span(c, a, 1) == Some(o) && Span(c, a + (n - 1), 1) == Some(o + (n - 1))
    ensures Span(c, a, n) == Some(o)
  {
    OneByte(c, a);
    OneByte(c, a + (n - 1));
  }
}
