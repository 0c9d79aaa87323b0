/**
 What the WM8740 holds after any words have been latched into it, read off the words alone.
 */
module Converter {
  import opened Common
  import opened Spi

  function Address(word: nat): nat { word / 512 % 8 }
  function Data(word: nat): nat { word % 512 }

  /** The last word addressed to register `a`. */
  function LastTo(words: seq<nat>, a: nat): (r: Option<nat>)
    ensures r.Some? ==> r.value < |words| && Address(words[r.value]) == a
    ensures r.Some? ==> forall k | r.value < k < |words| :: Address(words[k]) != a
    ensures r.None? ==> forall k | 0 <= k < |words| :: Address(words[k]) != a
    decreases |words|
  {
    if words == [] then None
    else if Address(words[|words| - 1]) == a then Some(|words| - 1)
    else LastTo(words[..|words| - 1], a)
  }

  /** The data last addressed to register `a`. */
  function Held(words: seq<nat>, a: nat, before: nat): nat {
    match LastTo(words, a)
    case None => before
    case Some(j) => Data(words[j])
  }

  /** Bit 8 of a word to either attenuation register loads both. */
  predicate Loads(word: nat) { Address(word) <= 1 && Data(word) / 0x100 == 1 }

  /** The last word that loads the attenuations. */
  function LastLoad(words: seq<nat>): (r: Option<nat>)
    ensures r.Some? ==> r.value < |words| && Loads(words[r.value])
    ensures r.Some? ==> forall k | r.value < k < |words| :: !Loads(words[k])
    ensures r.None? ==> forall k | 0 <= k < |words| :: !Loads(words[k])
    decreases |words|
  {
    if words == [] then None
    else if Loads(words[|words| - 1]) then Some(|words| - 1)
    else LastLoad(words[..|words| - 1])
  }

  /** A word to register 2 with all of bits 5 to 8 set. */
  predicate Unlocks(word: nat) { Address(word) == 2 && Data(word) / 32 == 15 }

  /** The last word to register 6 that found register 4 unlocked. */
  function LastOpen(words: seq<nat>, unlocked: bool): (r: Option<nat>)
    ensures r.Some? ==> r.value < |words| && Address(words[r.value]) == 6
    ensures r.Some? ==> unlocked || exists i | 0 <= i < r.value :: Unlocks(words[i])
    ensures forall k | 0 <= k < |words| && Address(words[k]) == 6 && (unlocked || exists i | 0 <= i < k :: Unlocks(words[i])) ::
              r.Some? && k <= r.value
    decreases |words|
  {
    if words == [] then None
    else
      var front, last := words[..|words| - 1], words[|words| - 1];
      assert forall i | 0 <= i < |front| :: words[i] == front[i];
      if Address(last) == 6 && (unlocked || exists i | 0 <= i < |front| :: Unlocks(words[i])) then Some(|words| - 1)
      else LastOpen(front, unlocked)
  }

  lemma HeldOn(front: seq<nat>, last: nat, a: nat, before: nat)
    ensures LastTo(front + [last], a) == if Address(last) == a then Some(|front|) else LastTo(front, a)
    ensures Held(front + [last], a, before) == if Address(last) == a then Data(last) else Held(front, a, before)
  {
    assert (front + [last])[..|front|] == front;
  }

  lemma LoadOn(front: seq<nat>, last: nat)
    ensures LastLoad(front + [last]) == if Loads(last) then Some(|front|) else LastLoad(front)
  {
    assert (front + [last])[..|front|] == front;
  }

  /** Some word so far has unlocked register 4. */
  predicate Unlocked(words: seq<nat>, before: bool) { before || exists i | 0 <= i < |words| :: Unlocks(words[i]) }

  lemma UnlockedOn(front: seq<nat>, last: nat, before: bool)
    ensures Unlocked(front + [last], before) == (Unlocked(front, before) || Unlocks(last))
  {
    hide Unlocks;
    var words := front + [last];
    if Unlocked(front, before) && !before {
      var i :| 0 <= i < |front| && Unlocks(front[i]);
      assert Unlocks(words[i]);
    }
    if Unlocks(last) {
      assert Unlocks(words[|front|]);
    }
  }

  lemma OpenOn(front: seq<nat>, last: nat, before: bool)
    ensures LastOpen(front + [last], before) ==
            if Address(last) == 6 && Unlocked(front, before) then Some(|front|) else LastOpen(front, before)
  {
    var words := front + [last];
    assert words[..|front|] == front && words[|words| - 1] == last;
    assert forall i | 0 <= i < |front| :: words[i] == front[i];
    hide Unlocks, Address;
  }

  /** The attenuation registers as they stand after some words. */
  function Levels(words: seq<nat>, d: Dac): (nat, nat)
    requires |d.program| == 5
  {
    (Held(words, 0, d.program[0]) % 0x100, Held(words, 1, d.program[1]) % 0x100)
  }

  /** What words addressed to it leave in register 3: the data without bit 5. */
  ghost predicate Muted(d: Dac, words: seq<nat>, r: Dac)
    requires |d.program| == |r.program| == 5
  {
    match LastTo(words, 3)
    case None => r.program[3] == d.program[3]
    case Some(j) => r.program[3] == Data(words[j]) / 64 * 64 + Data(words[j]) % 32
  }

  /** The active attenuations: what the two registers held at the last load. */
  ghost predicate Loaded(d: Dac, words: seq<nat>, r: Dac)
    requires |d.program| == 5
  {
    match LastLoad(words)
    case None => r.attenuation == d.attenuation
    case Some(j) => r.attenuation == Levels(words[..j + 1], d)
  }

  /** Register 4, once it is unlocked. */
  ghost predicate Opened(d: Dac, words: seq<nat>, r: Dac)
    requires |d.program| == |r.program| == 5
  {
    match LastOpen(words, d.unlocked)
    case None => r.program[4] == d.program[4]
    case Some(j) => r.program[4] == Data(words[j]) / 16 % 8 * 16
  }

  /** The converter after some words, in terms of the words. */
  ghost predicate Holds(d: Dac, words: seq<nat>, r: Dac) {
    && |d.program| == |r.program| == 5 && r.transfers == d.transfers + |words|
    && r.lastWord == (if words == [] then d.lastWord else words[|words| - 1])
    && (forall a | 0 <= a < 3 :: r.program[a] == Held(words, a, d.program[a]))
    && Muted(d, words, r) && Loaded(d, words, r) && Opened(d, words, r)
    && r.unlocked == Unlocked(words, d.unlocked)
  }

  /**
   After any legal words: registers 0 to 2 hold what was last addressed to them, register 3
   that without bit 5; the active attenuations are the low bytes of registers 0 and 1 as they
   stood at the last word to either with bit 8 set; and register 4 follows words to register 6
   only once some word to register 2 has unlocked it.
   */
  lemma {:induction false} LatchedHolds(d: Dac, words: seq<nat>)
    requires |d.program| == 5 && forall w | w in words :: WordValid(w)
    ensures Holds(d, words, LatchAll(d, words))
    decreases |words|
  {
    if words == [] {
      hide WordValid;
    } else {
      var front, last := words[..|words| - 1], words[|words| - 1];
      assert words == front + [last] && last in words && forall w | w in front :: w in words;
      hide *;
      LatchedHolds(d, front);
      LatchAllConcat(d, front, [last]);
      OneLatched(LatchAll(d, front), last);
      HoldsOn(d, front, LatchAll(d, front), last);
    }
  }

  lemma OneLatched(e: Dac, w: nat)
    requires |e.program| == 5
    ensures LatchAll(e, [w]) == Latch(e, w)
  {
    assert [w][1..] == [];
    hide Latch;
  }

  /** One word latched, in figures. */
  lemma LatchMeans(e: Dac, w: nat)
    requires |e.program| == 5 && WordValid(w)
    ensures var a, r := Address(w), Latch(e, w);
            && |r.program| == 5 && r.transfers == e.transfers + 1 && r.lastWord == w && (a <= 3 || a == 6)
            && (forall k | 0 <= k < 3 :: r.program[k] == if a == k then Data(w) else e.program[k])
            && r.program[3] == (if a == 3 then Data(w) / 64 * 64 + Data(w) % 32 else e.program[3])
            && r.program[4] == (if a == 6 && e.unlocked then Data(w) / 16 % 8 * 16 else e.program[4])
            && r.attenuation == (if Loads(w) then (r.program[0] % 0x100, r.program[1] % 0x100) else e.attenuation)
            && r.unlocked == (e.unlocked || Unlocks(w))
  {
    var data, a := Data(w), Address(w);
    DataBits(data);
    assert a <= 3 || a == 6;
    assert Loads(w) == (a <= 1 && data / 0x100 == 1) && Unlocks(w) == (a == 2 && data / 32 == 15);
    LatchBy(e, w);
    hide *;
  }

  lemma DataBits(data: nat)
    requires data < 0x200
    ensures data - data / 32 % 2 * 32 == data / 64 * 64 + data % 32 && data % 128 - data % 16 == data / 16 % 8 * 16
    ensures data / 0x100 == 1 <==> data >= 0x100
    ensures data / 32 == 15 <==> data >= 0x1e0
  {
    hide *;
    WithoutBit5(data);
    MiddleBits(data);
    TopBits(data);
  }

  lemma WithoutBit5(data: nat)
    ensures data - data / 32 % 2 * 32 == data / 64 * 64 + data % 32
  {
    var h := data / 32;
    assert h / 2 == data / 64 && data == 32 * h + data % 32 && h == 2 * (h / 2) + h % 2;
  }

  lemma MiddleBits(data: nat)
    ensures data % 128 - data % 16 == data / 16 % 8 * 16
  {
    var h := data / 16;
    assert h / 8 == data / 128 && data == 16 * h + data % 16 && h == 8 * (h / 8) + h % 8;
  }

  lemma TopBits(data: nat)
    requires data < 0x200
    ensures data / 0x100 == 1 <==> data >= 0x100
    ensures data / 32 == 15 <==> data >= 0x1e0
  {
  }

  /** The latch by the register addressed. */
  lemma LatchBy(e: Dac, w: nat)
    requires |e.program| == 5
    ensures var a, data, r := Address(w), Data(w), Latch(e, w);
            && |r.program| == 5 && r.transfers == e.transfers + 1 && r.lastWord == w && data < 0x200
            && (forall k | 0 <= k < 3 :: r.program[k] == if a == k then data else e.program[k])
            && r.program[3] == (if a == 3 then data - data / 32 % 2 * 32 else e.program[3])
            && r.program[4] == (if a > 3 && e.unlocked then data % 128 - data % 16 else e.program[4])
            && r.attenuation == (if a <= 1 && data >= 0x100 then (r.program[0] % 0x100, r.program[1] % 0x100) else e.attenuation)
            && r.unlocked == (e.unlocked || (a == 2 && data >= 0x1e0))
  {
  }

  lemma HoldsOn(d: Dac, front: seq<nat>, e: Dac, last: nat)
    requires Holds(d, front, e) && WordValid(last)
    ensures |e.program| == 5 && Holds(d, front + [last], Latch(e, last))
  {
    assert |e.program| == 5;
    var words, r := front + [last], Latch(e, last);
    LatchMeans(e, last);
    UnlockedOn(front, last, d.unlocked);
    forall a | 0 <= a < 3 ensures r.program[a] == Held(words, a, d.program[a]) {
      HeldOn(front, last, a, d.program[a]);
    }
    MutedOn(d, front, e, last);
    LoadedOn(d, front, e, last);
    OpenedOn(d, front, e, last);
    hide Latch, Muted, Loaded, Opened, Held, WordValid, Unlocked, Loads, Unlocks, Data, Address;
  }

  lemma MutedOn(d: Dac, front: seq<nat>, e: Dac, last: nat)
    requires |d.program| == |e.program| == 5 && Muted(d, front, e) && WordValid(last)
    ensures Muted(d, front + [last], Latch(e, last))
  {
    LatchMeans(e, last);
    HeldOn(front, last, 3, 0);
    hide Latch, LastTo, Held, WordValid;
  }

  lemma LoadedOn(d: Dac, front: seq<nat>, e: Dac, last: nat)
    requires |d.program| == |e.program| == 5 && Loaded(d, front, e) && WordValid(last)
    requires forall a | 0 <= a < 3 :: e.program[a] == Held(front, a, d.program[a])
    ensures Loaded(d, front + [last], Latch(e, last))
  {
    hide Latch, LastLoad, Held, WordValid, Loads, Address, Data;
    var words := front + [last];
    LatchMeans(e, last);
    LoadOn(front, last);
    HeldOn(front, last, 0, d.program[0]);
    HeldOn(front, last, 1, d.program[1]);
    assert words[..|front| + 1] == words;
    var l := LastLoad(front);
    if l.Some? {
      assert words[..l.value + 1] == front[..l.value + 1];
    }
  }

  lemma OpenedOn(d: Dac, front: seq<nat>, e: Dac, last: nat)
    requires |d.program| == |e.program| == 5 && Opened(d, front, e) && WordValid(last) && e.unlocked == Unlocked(front, d.unlocked)
    ensures Opened(d, front + [last], Latch(e, last))
  {
    LatchMeans(e, last);
    OpenOn(front, last, d.unlocked);
    hide Latch, LastOpen, WordValid, Unlocked, Address, Data;
  }

  /** Over any run of the board: what the converter holds, from the words it has accepted and latched. */
  lemma RunHolds(b: Board, ops: seq<Op>)
    requires Good(b) && Outstanding(b.transfer) == [] && |b.dac.program| == 5
    ensures var log, r := Accepted(b, ops), Play(b, ops);
            var latched := |log| - |Outstanding(r.transfer)|;
            0 <= latched && Holds(b.dac, log[..latched], r.dac)
  {
    NothingLost(b, ops);
    AcceptedLegal(b, ops);
    var log, latched := Accepted(b, ops), |Accepted(b, ops)| - |Outstanding(Play(b, ops).transfer)|;
    assert forall w | w in log[..latched] :: w in log;
    hide *;
    LatchedHolds(b.dac, log[..latched]);
  }

  /** Only words for registers the converter has are ever accepted. */
  lemma {:induction false} AcceptedLegal(b: Board, ops: seq<Op>)
    requires Good(b) && Outstanding(b.transfer) == []
    ensures forall w | w in Accepted(b, ops) :: WordValid(w)
    decreases |ops|
  {
    if ops != [] {
      var front, op := ops[..|ops| - 1], ops[|ops| - 1];
      AcceptedLegal(b, front);
      var log := Accepted(b, front);
      LogLegal(Play(b, front), log, op);
      hide WordValid, Log, Play, Good, Outstanding;
    }
  }

  lemma LogLegal(b: Board, log: seq<nat>, op: Op)
    requires |log| >= |Outstanding(b.transfer)| && forall w | w in log :: WordValid(w)
    ensures forall w | w in Log(b, log, op) :: WordValid(w)
  {
    hide WordValid, TransferValid, DacValid, Accept;
  }
}
