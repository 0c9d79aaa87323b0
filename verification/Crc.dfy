/**
 The record checksum of the serial link: a 24-bit shift register that computes the remainder
 of message * x^16 modulo x^16 + x^12 + x^5 + 1.  Polynomials over the two-element field are
 natural numbers, bit n being the coefficient of x^n.

 Addition is `Xor`, multiplication by x^k is `Up`, and `Times` is carry-less multiplication;
 the first part of the module is their algebra, by recursion on the binary digits.  The
 second part shows that each turn of the shift loop keeps the register congruent to what has
 been shifted in, and draws from it what the checksum is (`CrcDivides`, `CrcIsRemainder`),
 that it is linear (`LinearBytes`), and which damage it is certain to show
 (`BurstDetected`).
 */
module Crc {
  import opened Common

  const POLY: nat := 0x11021
  const REGISTER: nat := 0x1000000
  const FEEDBACK: nat := 0x01102100

  function Xor(a: nat, b: nat): (r: nat)
    decreases a + b
  {
    if a == 0 && b == 0 then 0 else (a + b) % 2 + 2 * Xor(a / 2, b / 2)
  }

  function Or(a: nat, b: nat): (r: nat)
    decreases a + b
  {
    if a == 0 && b == 0 then 0 else (if a % 2 + b % 2 == 0 then 0 else 1) + 2 * Or(a / 2, b / 2)
  }

  /** Multiplication by x^k, division by it, and having degree below it. */
  function Up(a: nat, k: nat): nat { if k == 0 then a else 2 * Up(a, k - 1) }
  function Down(a: nat, k: nat): nat { if k == 0 then a else Down(a / 2, k - 1) }
  predicate Fits(a: nat, k: nat) { if k == 0 then a == 0 else Fits(a / 2, k - 1) }

  /** The product of two polynomials. */
  function Times(q: nat, p: nat): nat {
    if q == 0 then 0 else Xor(if q % 2 == 1 then p else 0, 2 * Times(q / 2, p))
  }

  // ------------------------------------------------------------- the checksum

  /** One turn of the register. */
  function Step(s: nat): nat {
    if 2 * s / REGISTER % 2 == 1 then Xor(2 * s, FEEDBACK) else 2 * s
  }

  function Shift(s: nat, k: nat): nat { if k == 0 then s else Step(Shift(s, k - 1)) }

  /** The register after the bytes of a message. */
  function Load(data: seq<Byte>): nat
    decreases |data|
  {
    if data == [] then 0 else Shift(Or(Load(data[..|data| - 1]), data[|data| - 1] as int), 8)
  }

  function Checksum(data: seq<Byte>): nat { Shift(Load(data), 16) / 256 % 65536 }

  /** The message read as one polynomial, first byte highest. */
  function Number(data: seq<Byte>): nat
    decreases |data|
  {
    if data == [] then 0 else 256 * Number(data[..|data| - 1]) + data[|data| - 1] as int
  }

  method Compute(data: seq<Byte>) returns (crc: nat)
    ensures crc == Checksum(data) && crc < 65536
  {
    var state := 0;
    for i := 0 to |data|
      invariant state == Load(data[..i])
    {
      assert data[..i + 1][..i] == data[..i];
      ghost var loaded := Or(state, data[i] as int);
      state := Or(state, data[i] as int);
      for bit := 0 to 8
        invariant state == Shift(loaded, bit)
      {
        state := 2 * state;
        if state / REGISTER % 2 == 1 {
          state := Xor(state, FEEDBACK);
        }
      }
    }
    assert data[..|data|] == data;
    ghost var loaded := state;
    for bit := 0 to 16
      invariant state == Shift(loaded, bit)
    {
      state := 2 * state;
      if state / REGISTER % 2 == 1 {
        state := Xor(state, FEEDBACK);
      }
    }
    crc := state / 256 % 65536;
  }

  // -------------------------------------------------------------- the algebra

  lemma {:induction false} XorZero(a: nat)
    ensures Xor(a, 0) == a && Xor(0, a) == a
    decreases a
  {
    if a != 0 {
      XorZero(a / 2);
    }
  }

  lemma {:induction false} XorComm(a: nat, b: nat)
    ensures Xor(a, b) == Xor(b, a)
    decreases a + b
  {
    if a != 0 || b != 0 {
      XorComm(a / 2, b / 2);
    }
  }

  lemma XorHalves(a: nat, b: nat)
    ensures Xor(a, b) / 2 == Xor(a / 2, b / 2) && Xor(a, b) % 2 == (a + b) % 2
  {
  }

  lemma Parity(a: nat, b: nat, c: nat, ab: nat, bc: nat)
    requires ab % 2 == (a + b) % 2 && bc % 2 == (b + c) % 2
    ensures (ab + c) % 2 == (a + bc) % 2
  {
  }

  lemma SameNumber(x: nat, y: nat)
    requires x / 2 == y / 2 && x % 2 == y % 2
    ensures x == y
  {
  }

  lemma {:induction false} XorAssoc(a: nat, b: nat, c: nat)
    ensures Xor(Xor(a, b), c) == Xor(a, Xor(b, c))
    decreases a + b + c
  {
    if a != 0 || b != 0 || c != 0 {
      hide Xor;
      XorAssoc(a / 2, b / 2, c / 2);
      var ab, bc := Xor(a, b), Xor(b, c);
      XorHalves(a, b);
      XorHalves(b, c);
      XorHalves(ab, c);
      XorHalves(a, bc);
      Parity(a, b, c, ab, bc);
      SameNumber(Xor(ab, c), Xor(a, bc));
    }
  }

  lemma {:induction false} XorSelf(a: nat)
    ensures Xor(a, a) == 0
    decreases a
  {
    if a != 0 {
      XorSelf(a / 2);
    }
  }

  /** What is added twice cancels. */
  lemma XorCancel(a: nat, b: nat)
    ensures Xor(a, Xor(a, b)) == b
  {
    XorAssoc(a, a, b);
    XorSelf(a);
    XorZero(b);
  }

  /** The middle of four is exchanged. */
  lemma XorSwap(a: nat, b: nat, c: nat, d: nat)
    ensures Xor(Xor(a, b), Xor(c, d)) == Xor(Xor(a, c), Xor(b, d))
  {
    XorAssoc(a, b, Xor(c, d));
    XorAssoc(b, c, d);
    XorComm(b, c);
    XorAssoc(c, b, d);
    XorAssoc(a, c, Xor(b, d));
  }

  lemma XorDouble(a: nat, b: nat)
    ensures Xor(2 * a, 2 * b) == 2 * Xor(a, b)
  {
    XorHalves(2 * a, 2 * b);
    hide Xor;
    Twice(a);
    Twice(b);
    SameNumber(Xor(2 * a, 2 * b), 2 * Xor(a, b));
  }

  lemma Twice(a: nat)
    ensures 2 * a / 2 == a && 2 * a % 2 == 0
  {
  }

  lemma {:induction false} XorUp(a: nat, b: nat, k: nat)
    ensures Xor(Up(a, k), Up(b, k)) == Up(Xor(a, b), k)
  {
    hide Xor;
    if k != 0 {
      XorUp(a, b, k - 1);
      XorDouble(Up(a, k - 1), Up(b, k - 1));
    }
  }

  lemma {:induction false} XorDown(a: nat, b: nat, k: nat)
    ensures Down(Xor(a, b), k) == Xor(Down(a, k), Down(b, k))
  {
    if k != 0 {
      XorHalves(a, b);
      hide Xor;
      XorDown(a / 2, b / 2, k - 1);
    }
  }

  lemma {:induction false} XorFits(a: nat, b: nat, k: nat)
    requires Fits(a, k) && Fits(b, k)
    ensures Fits(Xor(a, b), k)
  {
    if k != 0 {
      XorHalves(a, b);
      hide Xor;
      XorFits(a / 2, b / 2, k - 1);
    }
  }

  lemma {:induction false} UpTwice(a: nat, k: nat)
    ensures Up(2 * a, k) == 2 * Up(a, k)
  {
    if k != 0 {
      UpTwice(a, k - 1);
    }
  }

  /** Low bits that are free are simply filled in. */
  lemma {:induction false} XorDisjoint(a: nat, d: nat, k: nat)
    requires Fits(d, k)
    ensures Xor(Up(a, k), d) == Up(a, k) + d == Or(Up(a, k), d)
    decreases k
  {
    if k == 0 {
      XorZero(a);
      OrZero(a);
    } else {
      var x := Up(a, k - 1);
      XorDisjoint(a, d / 2, k - 1);
      XorHalves(2 * x, d);
      OrHalves(2 * x, d);
      Twice(x);
      assert Up(a, k) == 2 * x;
      hide Xor, Or, Up, Fits;
      SameNumber(Xor(2 * x, d), 2 * x + d);
      SameNumber(Or(2 * x, d), 2 * x + d);
    }
  }

  lemma OrHalves(a: nat, b: nat)
    ensures Or(a, b) / 2 == Or(a / 2, b / 2) && Or(a, b) % 2 == if a % 2 + b % 2 == 0 then 0 else 1
  {
  }

  lemma {:induction false} OrZero(a: nat)
    ensures Or(a, 0) == a
    decreases a
  {
    if a != 0 {
      OrZero(a / 2);
    }
  }

  // ------------------------------------------------------------ multiplication

  lemma TimesDouble(q: nat, p: nat)
    ensures Times(2 * q, p) == 2 * Times(q, p)
    ensures Times(2 * q + 1, p) == Xor(p, 2 * Times(q, p))
  {
    assert (2 * q) / 2 == q && (2 * q + 1) / 2 == q;
    XorZero(2 * Times(q, p));
    XorZero(p);
    assert q == 0 ==> Times(q, p) == 0;
  }

  lemma TimesHalves(q: nat, p: nat)
    ensures Times(q, p) == Xor(if q % 2 == 1 then p else 0, 2 * Times(q / 2, p))
  {
    XorZero(0);
  }

  lemma XorBit(x: bool, y: bool, p: nat)
    ensures Xor(if x then p else 0, if y then p else 0) == if x != y then p else 0
  {
    XorZero(p);
    XorZero(0);
    XorSelf(p);
  }

  lemma {:induction false} TimesXor(q: nat, r: nat, p: nat)
    ensures Times(Xor(q, r), p) == Xor(Times(q, p), Times(r, p))
    decreases q + r
  {
    if q == 0 && r == 0 {
      XorZero(0);
    } else {
      TimesXor(q / 2, r / 2, p);
      XorHalves(q, r);
      TimesHalves(q, p);
      TimesHalves(r, p);
      TimesHalves(Xor(q, r), p);
      OddSum(q, r, Xor(q, r));
      hide Xor, Times;
      Combine(q % 2 == 1, r % 2 == 1, Times(q / 2, p), Times(r / 2, p), p);
    }
  }

  lemma OddSum(q: nat, r: nat, s: nat)
    requires s % 2 == (q + r) % 2
    ensures s % 2 == 1 <==> (q % 2 == 1) != (r % 2 == 1)
  {
  }

  lemma Combine(x: bool, y: bool, a: nat, b: nat, p: nat)
    ensures Xor(Xor(if x then p else 0, 2 * a), Xor(if y then p else 0, 2 * b))
         == Xor(if x != y then p else 0, 2 * Xor(a, b))
  {
    hide Xor;
    XorDouble(a, b);
    XorBit(x, y, p);
    XorSwap(if x then p else 0, 2 * a, if y then p else 0, 2 * b);
  }

  lemma {:induction false} TimesUp(q: nat, p: nat, k: nat)
    ensures Times(q, Up(p, k)) == Up(Times(q, p), k)
    decreases q
  {
    if q == 0 {
      UpZero(k);
    } else {
      TimesUp(q / 2, p, k);
      UpZero(k);
      hide Xor;
      UpTwice(Times(q / 2, p), k);
      XorUp(if q % 2 == 1 then p else 0, 2 * Times(q / 2, p), k);
    }
  }

  lemma {:induction false} UpZero(k: nat)
    ensures Up(0, k) == 0
  {
    if k != 0 {
      UpZero(k - 1);
    }
  }

  // Moving by constant amounts, in figures.

  lemma Two(a: nat)
    ensures Up(a, 2) == 4 * a && Down(a, 2) == a / 4 && (Fits(a, 2) <==> a < 4)
  {
    assert Up(a, 1) == 2 * a && Down(a / 2, 1) == a / 2 / 2;
    assert Fits(a / 2, 1) <==> Fits(a / 2 / 2, 0);
  }

  lemma Four(a: nat)
    ensures Up(a, 4) == 16 * a && Down(a, 4) == a / 16 && (Fits(a, 4) <==> a < 16)
  {
    Sums(a, 2, 2);
    Two(a);
    Two(4 * a);
    Two(a / 4);
    hide Up, Down, Fits;
  }

  lemma Eight(a: nat)
    ensures Up(a, 8) == 256 * a && Down(a, 8) == a / 256 && (Fits(a, 8) <==> a < 256)
  {
    Sums(a, 4, 4);
    Four(a);
    Four(16 * a);
    Four(a / 16);
    hide Up, Down, Fits;
  }

  lemma Sixteen(a: nat)
    ensures Up(a, 16) == 65536 * a && Down(a, 16) == a / 65536 && (Fits(a, 16) <==> a < 65536)
  {
    Sums(a, 8, 8);
    Eight(a);
    Eight(256 * a);
    Eight(a / 256);
    hide Up, Down, Fits;
  }

  lemma {:induction false} Sums(a: nat, j: nat, k: nat)
    ensures Up(a, j + k) == Up(Up(a, j), k)
    ensures Down(a, j + k) == Down(Down(a, j), k)
    ensures Fits(a, j + k) <==> Fits(Down(a, j), k)
  {
    UpSums(a, j, k);
    DownSums(a, j, k);
  }

  lemma {:induction false} UpSums(a: nat, j: nat, k: nat)
    ensures Up(a, j + k) == Up(Up(a, j), k)
    decreases k
  {
    if k != 0 {
      UpSums(a, j, k - 1);
    }
  }

  lemma {:induction false} DownSums(a: nat, j: nat, k: nat)
    ensures Down(a, j + k) == Down(Down(a, j), k)
    ensures Fits(a, j + k) <==> Fits(Down(a, j), k)
    decreases j
  {
    if j != 0 {
      DownSums(a / 2, j - 1, k);
    }
  }

  // -------------------------------------------------- the register divides

  /** `n` is `s` more than a multiple of the feedback polynomial. */
  ghost predicate Divides(n: nat, q: nat, s: nat) {
    n == Xor(Times(q, FEEDBACK), s) && s < REGISTER
  }

  lemma StepDivides(n: nat, q: nat, s: nat) returns (q': nat)
    requires Divides(n, q, s)
    ensures Divides(2 * n, q', Step(s))
  {
    var t := Times(q, FEEDBACK);
    XorDouble(t, s);
    TimesDouble(q, FEEDBACK);
    TopBit(2 * s);
    hide Xor, Times;
    OverTop(s);
    q' := 2 * q;
    if 2 * s >= REGISTER {
      q' := 2 * q + 1;
      Exchange(2 * t, 2 * s);
    }
  }

  lemma OverTop(s: nat)
    requires s < REGISTER
    ensures 2 * s / REGISTER % 2 == 1 <==> 2 * s >= REGISTER
  {
  }

  lemma Exchange(t: nat, s: nat)
    ensures Xor(Xor(FEEDBACK, t), Xor(s, FEEDBACK)) == Xor(t, s)
  {
    hide Xor;
    XorComm(s, FEEDBACK);
    XorSwap(FEEDBACK, t, FEEDBACK, s);
    XorSelf(FEEDBACK);
    XorZero(Xor(t, s));
  }

  /** The feedback clears the bit that set it off. */
  lemma TopBit(t: nat)
    requires t < 2 * REGISTER
    ensures t >= REGISTER ==> Xor(t, FEEDBACK) < REGISTER
  {
    if t >= REGISTER {
      XorDown(t, FEEDBACK, 24);
      DownIs24(t);
      DownIs24(FEEDBACK);
      DownIs24(Xor(t, FEEDBACK));
      assert Xor(1, 1) == 0;
    }
  }

  lemma DownIs24(a: nat)
    ensures Down(a, 24) == a / REGISTER
  {
    DownSums(a, 16, 8);
    Sixteen(a);
    Eight(a / 65536);
    hide Down;
  }

  lemma {:induction false} ShiftDivides(n: nat, q: nat, s: nat, k: nat) returns (q': nat)
    requires Divides(n, q, s)
    ensures Divides(Up(n, k), q', Shift(s, k))
  {
    if k == 0 {
      q' := q;
    } else {
      q' := ShiftDivides(n, q, s, k - 1);
      hide Divides, Step;
      q' := StepDivides(Up(n, k - 1), q', Shift(s, k - 1));
    }
  }

  /** The low byte of the register is free whenever that of the message is. */
  lemma LowByte(m: nat, q: nat, s: nat)
    requires Divides(256 * m, q, s)
    ensures s == Up(Xor(m, Times(q, POLY)), 8)
  {
    var t := Times(q, POLY);
    Eight(m);
    Eight(POLY);
    TimesUp(q, POLY, 8);
    assert FEEDBACK == Up(POLY, 8);
    hide Up, Times, Xor;
    XorCancel(Up(t, 8), s);
    XorUp(t, m, 8);
    XorComm(t, m);
  }

  lemma AddByte(m: nat, q: nat, s: nat, d: nat)
    requires Divides(256 * m, q, s) && d < 256
    ensures Divides(256 * m + d, q, Or(s, d))
  {
    hide *;
    var t, r := Times(q, FEEDBACK), Xor(m, Times(q, POLY));
    DividesMeans(256 * m, q, s);
    DividesMeans(256 * m + d, q, Or(s, d));
    LowByte(m, q, s);
    Eight(d);
    Eight(m);
    Eight(r);
    XorDisjoint(r, d, 8);
    XorDisjoint(m, d, 8);
    XorAssoc(t, s, d);
    RoomForByte(r, d);
  }

  lemma DividesMeans(n: nat, q: nat, s: nat)
    ensures Divides(n, q, s) <==> n == Xor(Times(q, FEEDBACK), s) && s < REGISTER
  {
    hide Xor, Times;
  }

  lemma RoomForByte(r: nat, d: nat)
    requires 256 * r < REGISTER && d < 256
    ensures 256 * r + d < REGISTER
  {
  }

  /** Between bytes the register holds message * x^8 reduced by the feedback polynomial. */
  lemma {:induction false} LoadDivides(data: seq<Byte>) returns (q: nat)
    ensures Divides(256 * Number(data), q, Load(data))
    decreases |data|
  {
    if data == [] {
      q := 0;
      XorZero(0);
    } else {
      var front, d := data[..|data| - 1], data[|data| - 1] as int;
      hide Divides, Shift, Or;
      q := LoadDivides(front);
      AddByte(Number(front), q, Load(front), d);
      Eight(Number(data));
      q := ShiftDivides(Number(data), q, Or(Load(front), d), 8);
    }
  }

  // -------------------------------------------------- what the checksum means

  /** The checksum is what is left of message * x^16 after dividing by the polynomial. */
  lemma CrcDivides(data: seq<Byte>) returns (q: nat)
    ensures Checksum(data) < 65536 && 65536 * Number(data) == Xor(Times(q, POLY), Checksum(data))
  {
    hide *;
    var n := Number(data);
    q := LoadDivides(data);
    q := ShiftDivides(256 * n, q, Load(data), 16);
    Sixteen(256 * n);
    Quotient(65536 * n, q, Shift(Load(data), 16));
    ChecksumIs(data);
  }

  lemma ChecksumIs(data: seq<Byte>)
    ensures Checksum(data) == Shift(Load(data), 16) / 256 % 65536
  {
    hide Load, Shift;
  }

  /** What the register holds at the end is the remainder, one byte up. */
  lemma Quotient(m: nat, q: nat, s: nat)
    requires Divides(256 * m, q, s)
    ensures var r := s / 256 % 65536; r < 65536 && m == Xor(Times(q, POLY), r)
  {
    LowByte(m, q, s);
    var t := Times(q, POLY);
    var r := Xor(m, t);
    Eight(r);
    hide Xor, Times, Up, Divides, Fits;
    TopHalf(s, r);
    XorComm(m, t);
    XorCancel(t, m);
  }

  lemma TopHalf(s: nat, r: nat)
    requires s == 256 * r && s < REGISTER
    ensures s / 256 % 65536 == r < 65536
  {
  }

  lemma {:induction false} XorNone(a: nat, b: nat)
    requires Xor(a, b) == 0
    ensures a == b
    decreases a + b
  {
    if a != 0 || b != 0 {
      XorHalves(a, b);
      hide Xor;
      XorNone(a / 2, b / 2);
    }
  }

  /** No multiple of the polynomial but zero has a degree below its own. */
  lemma {:induction false} TimesBig(q: nat)
    requires q > 0
    ensures Times(q, POLY) >= 65536
    decreases q
  {
    TimesHalves(q, POLY);
    var t := Times(q / 2, POLY);
    if q == 1 {
      assert t == 0;
      XorZero(POLY);
    } else {
      TimesBig(q / 2);
      var p := if q % 2 == 1 then POLY else 0;
      hide Xor, Times;
      XorDown(p, 2 * t, 17);
      DownSeventeen(p);
      DownSeventeen(2 * t);
      DownSeventeen(Xor(p, 2 * t));
      XorZero(2 * t / 131072);
    }
  }

  lemma DownSeventeen(a: nat)
    ensures Down(a, 17) == a / 131072
  {
    DownSums(a, 16, 1);
    Sixteen(a);
    assert Down(a / 65536, 1) == a / 65536 / 2;
    hide Down;
  }

  /** Division leaves only one remainder. */
  lemma Unique(q: nat, r: nat, q': nat, r': nat)
    requires r < 65536 && r' < 65536 && Xor(Times(q, POLY), r) == Xor(Times(q', POLY), r')
    ensures r == r'
  {
    var n := Xor(Times(q, POLY), r);
    Difference(Times(q, POLY), r, Times(q', POLY), r');
    TimesXor(q, q', POLY);
    Sixteen(r);
    Sixteen(r');
    Sixteen(Xor(r, r'));
    XorFits(r, r', 16);
    if Xor(q, q') > 0 {
      TimesBig(Xor(q, q'));
      assert false;
    }
    assert Times(0, POLY) == 0;
    hide Xor, Times;
    XorNone(r, r');
  }

  lemma Difference(a: nat, r: nat, b: nat, r': nat)
    requires Xor(a, r) == Xor(b, r')
    ensures Xor(a, b) == Xor(r, r')
  {
    hide Xor;
    XorComm(a, r);
    XorComm(b, r');
    var n := Xor(a, r);
    XorCancel(r, a);
    XorCancel(r', b);
    XorComm(r, n);
    XorComm(r', n);
    XorSwap(n, r, n, r');
    XorSelf(n);
    XorZero(Xor(r, r'));
  }

  /** The checksum is the remainder, and the only number that is. */
  lemma CrcIsRemainder(data: seq<Byte>, r: nat)
    requires r < 65536
    ensures r == Checksum(data) <==> exists q: nat :: 65536 * Number(data) == Xor(Times(q, POLY), r)
  {
    var q := CrcDivides(data);
    hide Checksum, Number, Xor, Times;
    forall q': nat | 65536 * Number(data) == Xor(Times(q', POLY), r) ensures r == Checksum(data) {
      Unique(q, Checksum(data), q', r);
    }
  }

  /** The checksum is linear. */
  lemma Linear(a: seq<Byte>, b: seq<Byte>, c: seq<Byte>)
    requires Number(c) == Xor(Number(a), Number(b))
    ensures Checksum(c) == Xor(Checksum(a), Checksum(b))
  {
    var q := CrcDivides(a);
    var q' := CrcDivides(b);
    var p := CrcDivides(c);
    hide Checksum, Number, Xor, Times;
    XorSwap(Times(q, POLY), Checksum(a), Times(q', POLY), Checksum(b));
    TimesXor(q, q', POLY);
    Sixteen(Number(a));
    Sixteen(Number(b));
    Sixteen(Number(c));
    XorUp(Number(a), Number(b), 16);
    Sixteen(Checksum(a));
    Sixteen(Checksum(b));
    Sixteen(Xor(Checksum(a), Checksum(b)));
    XorFits(Checksum(a), Checksum(b), 16);
    hide Up, Fits;
    Unique(p, Checksum(c), Xor(q, q'), Xor(Checksum(a), Checksum(b)));
  }

  /** A multiple of the polynomial is no single burst of 16 bits or fewer. */
  lemma {:induction false} NoBurst(q: nat, e: nat, k: nat)
    requires Times(q, POLY) == Up(e, k) && e < 65536
    ensures e == 0
    decreases k
  {
    hide *;
    UpMeans(e, k);
    if k == 0 {
      if q > 0 {
        TimesBig(q);
        assert false;
      }
      TimesNone(POLY);
    } else {
      EvenQuotient(q, Up(e, k - 1));
      NoBurst(q / 2, e, k - 1);
    }
  }

  /** An even multiple of the polynomial has an even quotient. */
  lemma EvenQuotient(q: nat, u: nat)
    requires Times(q, POLY) == 2 * u
    ensures Times(q / 2, POLY) == u
  {
    hide *;
    TimesHalves(q, POLY);
    if q % 2 == 1 {
      OddXor(Times(q / 2, POLY));
      assert false;
    } else {
      XorZero(2 * Times(q / 2, POLY));
    }
  }

  lemma OddXor(t: nat)
    ensures Xor(POLY, 2 * t) % 2 == 1
  {
    assert POLY % 2 == 1;
    hide *;
    XorParity(POLY, 2 * t);
    OddPlusEven(POLY, t);
  }

  lemma XorParity(a: nat, b: nat)
    ensures Xor(a, b) % 2 == (a + b) % 2
  {
    XorHalves(a, b);
    hide *;
  }

  lemma OddPlusEven(p: nat, t: nat)
    requires p % 2 == 1
    ensures (p + 2 * t) % 2 == 1
  {
  }

  lemma UpMeans(a: nat, k: nat)
    ensures Up(a, k) == if k == 0 then a else 2 * Up(a, k - 1)
  {
  }

  lemma TimesNone(p: nat)
    ensures Times(0, p) == 0
  {
  }

  /** Damage confined to 16 consecutive bits never goes unseen. */
  lemma BurstDetected(a: seq<Byte>, b: seq<Byte>, e: nat, k: nat)
    requires Xor(Number(a), Number(b)) == Up(e, k) && 0 < e < 65536
    ensures Checksum(a) != Checksum(b)
  {
    hide *;
    if Checksum(a) == Checksum(b) {
      var q := CrcDivides(a);
      var q' := CrcDivides(b);
      TimesXor(q, q', POLY);
      XorSwap(Times(q, POLY), Checksum(a), Times(q', POLY), Checksum(b));
      XorSelf(Checksum(a));
      XorZero(Xor(Times(q, POLY), Times(q', POLY)));
      Sixteen(Number(a));
      Sixteen(Number(b));
      XorUp(Number(a), Number(b), 16);
      UpSums(e, k, 16);
      NoBurst(Xor(q, q'), e, k + 16);
      assert false;
    }
  }

  // ---------------------------------------------------------------- by bytes

  lemma ByteXor(x: Byte, y: Byte)
    ensures Xor(x as int, y as int) < 256
  {
    Eight(x as int);
    Eight(y as int);
    Eight(Xor(x as int, y as int));
    XorFits(x as int, y as int, 8);
  }

  function XorBytes(a: seq<Byte>, b: seq<Byte>): (r: seq<Byte>)
    requires |a| == |b|
    ensures |r| == |a|
  {
    seq(|a|, i requires 0 <= i < |a| => ByteXor(a[i], b[i]); Xor(a[i] as int, b[i] as int) as Byte)
  }

  lemma {:induction false} NumberXor(a: seq<Byte>, b: seq<Byte>)
    requires |a| == |b|
    ensures Number(XorBytes(a, b)) == Xor(Number(a), Number(b))
    decreases |a|
  {
    if a == [] {
      XorZero(0);
    } else {
      hide *;
      var n, xs := |a| - 1, XorBytes(a, b);
      var x, y := a[n] as int, b[n] as int;
      BytesLast(a, b);
      NumberLast(xs);
      NumberLast(a);
      NumberLast(b);
      NumberXor(a[..n], b[..n]);
      JoinedXor(Number(a[..n]), Number(b[..n]), x, y);
    }
  }

  lemma JoinedXor(m: nat, n: nat, x: nat, y: nat)
    requires x < 256 && y < 256
    ensures 256 * Xor(m, n) + Xor(x, y) == Xor(256 * m + x, 256 * n + y)
  {
    hide *;
    ByteXor(x as Byte, y as Byte);
    Appended(m, x);
    Appended(n, y);
    Appended(Xor(m, n), Xor(x, y));
    XorSwap(Up(m, 8), x, Up(n, 8), y);
    XorUp(m, n, 8);
  }

  lemma NumberLast(a: seq<Byte>)
    requires a != []
    ensures Number(a) == 256 * Number(a[..|a| - 1]) + a[|a| - 1] as int
  {
  }

  lemma BytesLast(a: seq<Byte>, b: seq<Byte>)
    requires |a| == |b| > 0
    ensures var n, xs := |a| - 1, XorBytes(a, b);
            xs[..n] == XorBytes(a[..n], b[..n]) && xs[n] as int == Xor(a[n] as int, b[n] as int)
  {
    hide Xor;
  }

  lemma Appended(m: nat, d: nat)
    requires d < 256
    ensures 256 * m + d == Xor(Up(m, 8), d)
  {
    Eight(m);
    Eight(d);
    XorDisjoint(m, d, 8);
  }

  /** Over messages of one length, adding messages adds checksums. */
  lemma LinearBytes(a: seq<Byte>, b: seq<Byte>)
    requires |a| == |b|
    ensures Checksum(XorBytes(a, b)) == Xor(Checksum(a), Checksum(b))
  {
    NumberXor(a, b);
    Linear(a, b, XorBytes(a, b));
  }
}
