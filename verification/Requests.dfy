/**
 What happens to a request of the GUI's on its way into MAIN, and to MAIN's answer on its
 way out: up to four rewriters change a word of a 48-byte frame and stamp its checksum anew.

 A rewriter is guarded by the frame's type, cursor and kind, and by a setting.  The chain is
 described as a whole: which frames leave it with a correct checksum (`InboundChecks`), what
 it changes in them (`InboundMeans`), and that no rewriter decides another's guard
 (`GuardsStand`).  An answer is rewritten by one rewriter of its own (`RowsChecks`,
 `RowsMatch`).
 */
module Requests {
  import opened Common
  import opened Crc

  type Frame = seq<Byte>

  const REQUEST_LEN: nat := 48

  /** CDJ_REQ_KIND, CDJ_REQ_NOCANCEL (ms), CDJ_REQ_CURSOR and CDJ_REQ_STATUS_FRESH. */
  datatype Settings = Settings(kind: Option<nat>, noCancel: Option<nat>, onlyCursor: Option<nat>, freshen: bool)

  function Half(f: Frame, i: nat): nat
    requires i + 2 <= |f|
  {
    f[i] as int + 256 * f[i + 1] as int
  }

  function SetHalf(f: Frame, i: nat, v: nat): (r: Frame)
    requires i + 2 <= |f|
    ensures |r| == |f|
  {
    f[i := (v % 256) as Byte][i + 1 := (v / 256 % 256) as Byte]
  }

  function Restamp(f: Frame): (r: Frame)
    requires |f| == REQUEST_LEN
    ensures |r| == |f|
  {
    SetHalf(f, 46, Checksum(f[..46]))
  }

  predicate Checked(f: Frame) {
    |f| == REQUEST_LEN && Half(f, 46) == Checksum(f[..46])
  }

  function Type(f: Frame): nat requires |f| == REQUEST_LEN { Half(f, 2) % 0x4000 }
  predicate Repeat(f: Frame) requires |f| == REQUEST_LEN { Half(f, 2) / 0x8000 == 1 }
  function Cursor(f: Frame): nat requires |f| == REQUEST_LEN { Half(f, 4) }

  predicate OfCursor(s: Settings, f: Frame)
    requires |f| == REQUEST_LEN
  {
    s.onlyCursor.Some? ==> Cursor(f) == s.onlyCursor.value
  }

  // --------------------------------------------------- into MAIN, in order

  predicate Forces(s: Settings, f: Frame) {
    s.kind.Some? && |f| == REQUEST_LEN && Type(f) == 1 && OfCursor(s, f) && Half(f, 8) != s.kind.value
  }

  function ForceKind(s: Settings, f: Frame): Frame {
    if Forces(s, f) then Restamp(SetHalf(f, 8, s.kind.value)) else f
  }

  predicate Clears(s: Settings, f: Frame, now: int, next: int) {
    s.noCancel.Some? && |f| == REQUEST_LEN && Type(f) == 1 && Repeat(f) && OfCursor(s, f) && now >= next
  }

  function ClearCancel(s: Settings, f: Frame, now: int, next: int): Frame {
    if Clears(s, f, now, next) then Restamp(SetHalf(f, 2, Half(f, 2) - 0x8000)) else f
  }

  /** When the next request may have its cancel bit cleared, in ms. */
  function NextClear(s: Settings, f: Frame, now: int, next: int): int {
    if Clears(s, f, now, next) then now + s.noCancel.value else next
  }

  predicate Freshens(s: Settings, f: Frame) {
    s.freshen && |f| == REQUEST_LEN && Type(f) == 0 && Repeat(f)
  }

  function StatusFresh(s: Settings, f: Frame): Frame {
    if Freshens(s, f) then Restamp(SetHalf(SetHalf(f, 0, 1), 2, Half(f, 2) - 0x8000)) else f
  }

  function Inbound(s: Settings, f: Frame, now: int, next: int): Frame {
    StatusFresh(s, ClearCancel(s, ForceKind(s, f), now, next))
  }

  /** Whether any rewriter touches a frame. */
  predicate Rewritten(s: Settings, f: Frame, now: int, next: int) {
    Forces(s, f) || Clears(s, f, now, next) || Freshens(s, f)
  }

  // -------------------------------------------------------------- out of MAIN

  datatype Rows = Off | Drop | Empty | Match

  function Blank(f: Frame): (r: Frame)
    requires |f| == REQUEST_LEN
    ensures |r| == |f|
  {
    f[..16] + seq(30, i => 0) + f[46..]
  }

  /** The cursor nibble a LINK browse answer should carry. */
  function Wanted(f: Frame, cursor: nat): nat
    requires |f| == REQUEST_LEN
  {
    Half(f, 0) - Half(f, 0) % 16 + cursor % 16
  }

  /** MAIN's answer given the last request handed over, or nothing if it is not to be sent. */
  function LinkRows(mode: Rows, f: Frame, lastType: nat, lastCursor: nat, lastKind: nat): Option<Frame> {
    if mode == Off || |f| != REQUEST_LEN || lastType != 1 then Some(f)
    else if mode == Match then
      if Half(f, 0) >= 256 || Half(f, 0) == Wanted(f, lastCursor) || lastCursor > 15 then Some(f)
      else Some(Restamp(f[0 := (Wanted(f, lastCursor) % 256) as Byte]))
    else if lastCursor != 3 || lastKind != 0 || Half(f, 0) != 0x11 then Some(f)
    else if mode == Drop then None
    else Some(Restamp(Blank(f)))
  }

  // ------------------------------------------------------------------ lemmas

  lemma HalfBack(f: Frame, i: nat)
    requires i + 2 <= |f|
    ensures SetHalf(f, i, Half(f, i)) == f && Half(f, i) < 65536
  {
    var low, high := f[i] as int, f[i + 1] as int;
    assert (low + 256 * high) % 256 == low && (low + 256 * high) / 256 == high;
  }

  lemma SetHalfReads(f: Frame, i: nat, v: nat)
    requires i + 2 <= |f|
    ensures Half(SetHalf(f, i, v), i) == v % 65536
    ensures forall k | 0 <= k < |f| && k != i && k != i + 1 :: SetHalf(f, i, v)[k] == f[k]
  {
    assert v % 65536 == v % 256 + 256 * (v / 256 % 256);
  }

  /** A re-stamped frame has a correct checksum, whatever it had before, and nothing else changes. */
  lemma RestampChecks(f: Frame)
    requires |f| == REQUEST_LEN
    ensures Checked(Restamp(f)) && Restamp(f)[..46] == f[..46]
    ensures Checked(f) ==> Restamp(f) == f
  {
    var q := CrcDivides(f[..46]);
    hide Checksum;
    SetHalfReads(f, 46, Checksum(f[..46]));
    assert Restamp(f)[..46] == f[..46];
    HalfBack(f, 46);
  }

  /** Which frames a rewriter changes does not depend on what an earlier one wrote. */
  lemma GuardsStand(s: Settings, f: Frame, now: int, next: int)
    ensures Clears(s, ForceKind(s, f), now, next) == Clears(s, f, now, next)
    ensures Freshens(s, ClearCancel(s, ForceKind(s, f), now, next)) == Freshens(s, f)
  {
    if |f| == REQUEST_LEN {
      ForceMeans(s, f);
      ClearMeans(s, ForceKind(s, f), now, next);
      var g := ForceKind(s, f);
      hide ForceKind, ClearCancel;
      assert Half(g, 2) == Half(f, 2) && Half(g, 4) == Half(f, 4);
    }
  }

  lemma RestampKeeps(f: Frame)
    requires |f| == REQUEST_LEN
    ensures forall k | 0 <= k < 46 :: Restamp(f)[k] == f[k]
  {
    SetHalfReads(f, 46, Checksum(f[..46]));
    hide Checksum;
  }

  lemma ForceChecks(s: Settings, f: Frame)
    ensures Forces(s, f) ==> Checked(ForceKind(s, f))
  {
    if Forces(s, f) {
      RestampChecks(SetHalf(f, 8, s.kind.value));
    }
    hide Restamp, SetHalf, Checked;
  }

  lemma ClearChecks(s: Settings, f: Frame, now: int, next: int)
    ensures Clears(s, f, now, next) ==> Checked(ClearCancel(s, f, now, next))
  {
    if Clears(s, f, now, next) {
      RestampChecks(SetHalf(f, 2, Half(f, 2) - 0x8000));
    }
    hide Restamp, SetHalf, Checked;
  }

  lemma FreshChecks(s: Settings, f: Frame)
    ensures Freshens(s, f) ==> Checked(StatusFresh(s, f))
  {
    if Freshens(s, f) {
      RestampChecks(SetHalf(SetHalf(f, 0, 1), 2, Half(f, 2) - 0x8000));
    }
    hide Restamp, SetHalf, Checked;
  }

  /**
   The chain keeps correct checksums correct; and a damaged request reaches MAIN looking
   sound exactly when some rewriter touched it.
   */
  lemma InboundChecks(s: Settings, f: Frame, now: int, next: int)
    ensures Checked(Inbound(s, f, now, next)) <==> Checked(f) || Rewritten(s, f, now, next)
  {
    GuardsStand(s, f, now, next);
    ForceChecks(s, f);
    ClearChecks(s, ForceKind(s, f), now, next);
    FreshChecks(s, ClearCancel(s, ForceKind(s, f), now, next));
    hide Forces, Clears, Freshens, Checked, Restamp, SetHalf;
  }

  /** A request under another cursor than the chosen one is left alone, but for a status repeat. */
  lemma OthersPass(s: Settings, f: Frame, now: int, next: int)
    requires |f| == REQUEST_LEN && s.onlyCursor.Some? && Cursor(f) != s.onlyCursor.value
    ensures Inbound(s, f, now, next) == StatusFresh(s, f) && NextClear(s, f, now, next) == next
    ensures !s.freshen || Type(f) != 0 || !Repeat(f) ==> Inbound(s, f, now, next) == f
  {
    hide Restamp, Half;
  }

  /** What MAIN then sees: no status repeat, and the kind asked for under the chosen cursor. */
  lemma InboundMeans(s: Settings, f: Frame, now: int, next: int)
    requires |f| == REQUEST_LEN
    ensures var r := Inbound(s, f, now, next);
            && |r| == REQUEST_LEN && Type(r) == Type(f) && Cursor(r) == Cursor(f)
            && (s.freshen && Type(f) == 0 ==> !Repeat(r) && (Repeat(f) ==> Half(r, 0) == 1))
            && (Clears(s, f, now, next) ==> !Repeat(r))
            && (s.kind.Some? && Type(f) == 1 && OfCursor(s, f) ==> Half(r, 8) == s.kind.value % 65536)
            && (forall k | 0 <= k < 46 && k !in {0, 1, 2, 3, 8, 9} :: r[k] == f[k])
  {
    var g := ForceKind(s, f);
    var h := ClearCancel(s, g, now, next);
    GuardsStand(s, f, now, next);
    ForceMeans(s, f);
    ClearMeans(s, g, now, next);
    FreshMeans(s, h);
    hide ForceKind, ClearCancel, StatusFresh;
  }

  lemma ForceMeans(s: Settings, f: Frame)
    requires |f| == REQUEST_LEN
    ensures var g := ForceKind(s, f);
            && |g| == REQUEST_LEN && (forall k | 0 <= k < 46 && k != 8 && k != 9 :: g[k] == f[k])
            && (s.kind.Some? && Type(f) == 1 && OfCursor(s, f) ==> Half(g, 8) == s.kind.value % 65536)
  {
    if Forces(s, f) {
      var h := SetHalf(f, 8, s.kind.value);
      SetHalfReads(f, 8, s.kind.value);
      RestampKeeps(h);
      assert Half(Restamp(h), 8) == Half(h, 8);
      hide Restamp, SetHalf;
    } else {
      HalfBack(f, 8);
      assert Half(f, 8) % 65536 == Half(f, 8);
    }
  }

  /** Clearing the repeat bit leaves the type. */
  lemma RepeatCleared(v: nat)
    requires 0x8000 <= v < 0x10000
    ensures (v - 0x8000) % 0x4000 == v % 0x4000 && (v - 0x8000) / 0x8000 == 0
  {
  }

  lemma ClearMeans(s: Settings, g: Frame, now: int, next: int)
    requires |g| == REQUEST_LEN
    ensures var h := ClearCancel(s, g, now, next);
            && |h| == REQUEST_LEN && (forall k | 0 <= k < 46 && k != 2 && k != 3 :: h[k] == g[k])
            && Type(h) == Type(g) && (Clears(s, g, now, next) ==> !Repeat(h)) && (Repeat(h) ==> Repeat(g))
            && (!Clears(s, g, now, next) ==> h == g)
  {
    if Clears(s, g, now, next) {
      assert Repeat(g) && ClearCancel(s, g, now, next) == Restamp(SetHalf(g, 2, Half(g, 2) - 0x8000));
      hide ClearCancel, Clears, Restamp, SetHalf, Type, Repeat;
      Uncancelled(g);
    }
  }

  /** A request restamped without its repeat bit. */
  lemma Uncancelled(g: Frame)
    requires |g| == REQUEST_LEN && Repeat(g)
    ensures var h := Restamp(SetHalf(g, 2, Half(g, 2) - 0x8000));
            |h| == REQUEST_LEN && (forall k | 0 <= k < 46 && k != 2 && k != 3 :: h[k] == g[k]) && Type(h) == Type(g) && !Repeat(h)
  {
    assert Half(g, 2) >= 0x8000 && REQUEST_LEN == 48;
    var v := Half(g, 2) - 0x8000;
    var h := SetHalf(g, 2, v);
    hide *;
    HalfBack(g, 2);
    SetHalfReads(g, 2, v);
    RestampKeeps(h);
    SameHalf(Restamp(h), h, 2);
    RepeatLost(g, Restamp(h));
  }

  lemma RepeatLost(g: Frame, h: Frame)
    requires |g| == |h| == REQUEST_LEN && Repeat(g) && Half(h, 2) == (Half(g, 2) - 0x8000) % 65536 && Half(g, 2) < 65536
    ensures Type(h) == Type(g) && !Repeat(h)
  {
    RepeatCleared(Half(g, 2));
    hide Half;
  }

  lemma FreshMeans(s: Settings, h: Frame)
    requires |h| == REQUEST_LEN
    ensures var r := StatusFresh(s, h);
            && |r| == REQUEST_LEN && (forall k | 4 <= k < 46 :: r[k] == h[k])
            && Type(r) == Type(h) && (Freshens(s, h) ==> !Repeat(r) && Half(r, 0) == 1)
            && (!Freshens(s, h) ==> r == h)
  {
    if Freshens(s, h) {
      var v := Half(h, 2) - 0x8000;
      var b := SetHalf(SetHalf(h, 0, 1), 2, v);
      HalfBack(h, 2);
      RepeatCleared(Half(h, 2));
      TwoSet(h, v);
      RestampKeeps(b);
      assert StatusFresh(s, h) == Restamp(b);
      hide StatusFresh, Restamp, SetHalf;
      SameHalf(Restamp(b), b, 0);
      SameHalf(Restamp(b), b, 2);
    }
  }

  lemma SameHalf(f: Frame, g: Frame, i: nat)
    requires i + 2 <= |f| == |g| && f[i] == g[i] && f[i + 1] == g[i + 1]
    ensures Half(f, i) == Half(g, i)
  {
  }

  lemma TwoSet(h: Frame, v: nat)
    requires |h| == REQUEST_LEN && v < 65536
    ensures var b := SetHalf(SetHalf(h, 0, 1), 2, v);
            Half(b, 0) == 1 && Half(b, 2) == v && forall k | 4 <= k < REQUEST_LEN :: b[k] == h[k]
  {
    var a := SetHalf(h, 0, 1);
    SetHalfReads(h, 0, 1);
    SetHalfReads(a, 2, v);
    SameHalf(SetHalf(a, 2, v), a, 0);
    hide SetHalf, Half;
  }

  /** An answer goes out with a correct checksum if it had one, and is held back only where that is asked for. */
  lemma RowsChecks(mode: Rows, f: Frame, lastType: nat, lastCursor: nat, lastKind: nat)
    requires Checked(f)
    ensures var r := LinkRows(mode, f, lastType, lastCursor, lastKind);
            && (r.Some? ==> Checked(r.value))
            && (r.None? <==> mode == Drop && lastType == 1 && lastCursor == 3 && lastKind == 0 && Half(f, 0) == 0x11)
  {
    RestampChecks(f[0 := (Wanted(f, lastCursor) % 256) as Byte]);
    RestampChecks(Blank(f));
    assert |f| == REQUEST_LEN;
    hide Restamp, Checked, Blank, Half, Wanted;
  }

  /**
   An answer is changed exactly in two cases: under "match", to the last browse request, where its
   row is a byte whose low nibble is not that request's cursor; and under "empty" to the rows of
   cursor 3, which then leave blank but for the first sixteen bytes.
   */
  lemma RowsChange(mode: Rows, f: Frame, lastType: nat, lastCursor: nat, lastKind: nat)
    requires Checked(f)
    ensures var r := LinkRows(mode, f, lastType, lastCursor, lastKind);
            var matched := mode == Match && lastType == 1 && lastCursor <= 15 && Half(f, 0) < 256 && Half(f, 0) % 16 != lastCursor;
            var emptied := mode == Empty && lastType == 1 && lastCursor == 3 && lastKind == 0 && Half(f, 0) == 0x11;
            && (r.Some? && !matched && !emptied ==> r.value == f)
            && (matched ==> r.Some? && r.value != f)
            && (emptied ==> r.Some? && |r.value| == REQUEST_LEN
                            && forall k | 0 <= k < 46 :: r.value[k] == if k < 16 then f[k] else 0)
  {
    if mode == Match && lastType == 1 && lastCursor <= 15 && Half(f, 0) < 256 {
      RowsMatch(f, lastCursor, lastKind);
      NibbleSet(Half(f, 0), lastCursor);
    }
    RestampKeeps(Blank(f));
    hide Restamp, Checksum;
  }

  /**
   Under "match" it carries the cursor of the request it answers; but for that nibble and, where
   the nibble changes, the checksum it stands as it came, and the checksum is then correct.
   */
  lemma RowsMatch(f: Frame, cursor: nat, lastKind: nat)
    requires |f| == REQUEST_LEN && cursor <= 15 && Half(f, 0) < 256
    ensures var r := LinkRows(Match, f, 1, cursor, lastKind);
            && r.Some? && |r.value| == REQUEST_LEN
            && Half(r.value, 0) % 16 == cursor && Half(r.value, 0) / 16 == Half(f, 0) / 16
            && (forall k | 1 <= k < 46 :: r.value[k] == f[k])
            && (if Half(f, 0) % 16 == cursor then r.value == f else Checked(r.value))
  {
    var w := Wanted(f, cursor);
    var g := f[0 := (w % 256) as Byte];
    NibbleSet(Half(f, 0), cursor);
    RestampKeeps(g);
    RestampChecks(g);
    assert f[1] == 0 && w < 256;
    assert Half(f, 0) == w <==> Half(f, 0) % 16 == cursor;
    hide Restamp, Wanted, Checked;
    assert Half(f, 0) != w ==> Half(Restamp(g), 0) == w;
  }

  lemma NibbleSet(cmd: nat, cursor: nat)
    requires cmd < 256 && cursor < 16
    ensures var w := cmd - cmd % 16 + cursor % 16; w < 256 && w % 16 == cursor && w / 16 == cmd / 16
  {
  }

  // ---------------------------------------------------------- frames in place

  method PutHalf(f: array<Byte>, i: nat, v: nat)
    requires i + 2 <= f.Length
    modifies f
    ensures f[..] == SetHalf(old(f[..]), i, v)
  {
    f[i] := (v % 256) as Byte;
    f[i + 1] := (v / 256 % 256) as Byte;
  }

  method Stamp(f: array<Byte>)
    requires f.Length == REQUEST_LEN
    modifies f
    ensures f[..] == Restamp(old(f[..]))
  {
    assert f[..][..46] == f[..46];
    var crc := Compute(f[..46]);
    PutHalf(f, 46, crc);
  }

  /** What `cdj_link_deliver` does to its copy of a frame before the guest sees it. */
  method Prepare(s: Settings, f: array<Byte>, now: int, next: int) returns (next': int)
    modifies f
    ensures f[..] == Inbound(s, old(f[..]), now, next)
    ensures next' == NextClear(s, ForceKind(s, old(f[..])), now, next)
  {
    hide Restamp, SetHalf;
    next' := next;
    if f.Length != REQUEST_LEN {
      return;
    }
    if Forces(s, f[..]) {
      PutHalf(f, 8, s.kind.value);
      Stamp(f);
    }
    if Clears(s, f[..], now, next) {
      next' := now + s.noCancel.value;
      PutHalf(f, 2, Half(f[..], 2) - 0x8000);
      Stamp(f);
    }
    if Freshens(s, f[..]) {
      var word1 := Half(f[..], 2);
      PutHalf(f, 0, 1);
      PutHalf(f, 2, word1 - 0x8000);
      Stamp(f);
    }
  }
}
