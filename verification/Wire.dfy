/**
 The byte stream both links speak: a 20-byte header -- "CDJC", the type, three zero bytes,
 the guest time (u64) and the payload length (u32), little endian -- and the payload.  The
 reader gathers whatever each receive returns in a fixed buffer and takes whole messages out.
 */
module Wire {
  import opened Common
  import opened Endpoint

  const HEADER: nat := 20
  const TIME: Byte := 1
  const RECORD: Byte := 2
  const REQUEST: Byte := 3
  const HELLO: Byte := 4
  const FRAME: Byte := 5
  const U64: nat := 0x1_0000_0000_0000_0000

  const MAGIC: seq<Byte> := [67, 68, 74, 67]

  /** The longest payload a link takes. */
  function PayloadMax(kind: Kind): nat { if kind == BoardLink then 8192 else 2048 }

  datatype Message = Message(kind: Byte, t: int, payload: seq<Byte>)

  predicate Proper(kind: Kind, m: Message) {
    -0x8000_0000_0000_0000 <= m.t < 0x8000_0000_0000_0000 && |m.payload| <= PayloadMax(kind)
  }

  /** A 64-bit word read as a signed time. */
  function Signed64(v: nat): int { if v < U64 / 2 then v else v - U64 }

  function Encode(m: Message): (r: seq<Byte>)
    ensures |r| == HEADER + |m.payload|
  {
    MAGIC + [m.kind, 0, 0, 0] + Bytes(m.t % U64, 8) + Bytes(|m.payload|, 4) + m.payload
  }

  function EncodeAll(ms: seq<Message>): seq<Byte>
    decreases |ms|
  {
    if ms == [] then [] else Encode(ms[0]) + EncodeAll(ms[1..])
  }

  function Length(head: seq<Byte>): nat requires |head| >= HEADER { Little(head[16..20]) }

  predicate Malformed(kind: Kind, head: seq<Byte>)
    requires |head| >= HEADER
  {
    head[..4] != MAGIC || Length(head) > PayloadMax(kind)
  }

  /** The first message of a stream that holds it whole. */
  function Decode(b: seq<Byte>): Message
    requires |b| >= HEADER && |b| >= HEADER + Length(b)
  {
    Message(b[4], Signed64(Little(b[8..16])), b[HEADER..HEADER + Length(b)])
  }

  datatype Parsed = Parsed(ms: seq<Message>, rest: seq<Byte>, lost: bool)

  /** Take whole messages off the front; a malformed header loses the link. */
  function Unpack(kind: Kind, b: seq<Byte>): (r: Parsed)
    ensures |r.rest| <= |b|
    decreases |b|
  {
    if |b| < HEADER then Parsed([], b, false)
    else if Malformed(kind, b) then Parsed([], b, true)
    else if |b| < HEADER + Length(b) then Parsed([], b, false)
    else
      var p := Unpack(kind, b[HEADER + Length(b)..]);
      p.(ms := [Decode(b)] + p.ms)
  }

  /** A whole message stands at the front of a stream. */
  predicate Whole(kind: Kind, b: seq<Byte>) {
    |b| >= HEADER && !Malformed(kind, b) && |b| >= HEADER + Length(b)
  }

  /** The start of a message, well formed as far as it goes. */
  predicate Partial(kind: Kind, b: seq<Byte>) {
    |b| < HEADER || (!Malformed(kind, b) && |b| < HEADER + Length(b))
  }

  // -------------------------------------------------------------- round trips

  lemma EncodeFields(kind: Kind, m: Message, tail: seq<Byte>)
    requires Proper(kind, m)
    ensures var b := Encode(m) + tail;
            && b[..4] == MAGIC && b[4] == m.kind && Length(b) == |m.payload|
            && b[HEADER..HEADER + |m.payload|] == m.payload && Little(b[8..16]) == m.t % U64
            && b[HEADER + |m.payload|..] == tail
  {
    PowersOf256();
    LittleBytes(m.t % U64, 8);
    LittleBytes(|m.payload|, 4);
    assert Encode(m) + tail == MAGIC + [m.kind, 0, 0, 0] + Bytes(m.t % U64, 8) + Bytes(|m.payload|, 4) + m.payload + tail;
    hide Little, Bytes, Encode;
    Layout(m.kind, Bytes(m.t % U64, 8), Bytes(|m.payload|, 4), m.payload, tail);
  }

  lemma Layout(kind: Byte, t: seq<Byte>, length: seq<Byte>, payload: seq<Byte>, tail: seq<Byte>)
    requires |t| == 8 && |length| == 4
    ensures var b := MAGIC + [kind, 0, 0, 0] + t + length + payload + tail;
            && b[..4] == MAGIC && b[4] == kind && b[8..16] == t && b[16..20] == length
            && b[HEADER..HEADER + |payload|] == payload && b[HEADER + |payload|..] == tail
  {
    var head := MAGIC + [kind, 0, 0, 0] + t + length;
    var b := head + payload + tail;
    assert b[..4] == head[..4] && b[8..16] == head[8..16] && b[16..20] == head[16..20];
  }

  /** A message put on the wire is the message taken off it, whatever follows. */
  lemma RoundTrip(kind: Kind, m: Message, tail: seq<Byte>)
    requires Proper(kind, m)
    ensures var b := Encode(m) + tail; Whole(kind, b) && Decode(b) == m && b[HEADER + Length(b)..] == tail
  {
    EncodeFields(kind, m, tail);
    var b := Encode(m) + tail;
    assert |b| == HEADER + |m.payload| + |tail|;
    hide Encode, Length, Little, Signed64;
    SignedAgain(m.t);
  }

  lemma SignedAgain(t: int)
    requires -0x8000_0000_0000_0000 <= t < 0x8000_0000_0000_0000
    ensures Signed64(t % U64) == t
  {
    if t < 0 {
      DivUnique(t + U64, U64, 0, t + U64);
      assert t % U64 == (t + U64) % U64;
    } else {
      DivUnique(t, U64, 0, t);
    }
  }

  /** And re-encoding what was taken off restores the bytes exactly when the three reserved bytes were zero. */
  lemma BackTrip(kind: Kind, b: seq<Byte>)
    requires Whole(kind, b) && |b| == HEADER + Length(b)
    ensures Proper(kind, Decode(b))
    ensures Encode(Decode(b)) == b <==> b[5..8] == [0, 0, 0]
  {
    var m := Decode(b);
    PowersOf256();
    LittleBound(b[8..16]);
    BytesLittle(b[8..16]);
    BytesLittle(b[16..20]);
    SignedBack(Little(b[8..16]));
    hide Little, Signed64;
    assert m.t % U64 == Little(b[8..16]) && b[..4] == MAGIC && |m.payload| == Little(b[16..20]);
    assert Encode(m) == b[..4] + [b[4], 0, 0, 0] + b[8..16] + b[16..20] + b[20..];
    hide *;
    Reassembled(b);
  }

  lemma SignedBack(v: nat)
    requires v < U64
    ensures Signed64(v) % U64 == v && -0x8000_0000_0000_0000 <= Signed64(v) < 0x8000_0000_0000_0000
  {
  }

  lemma Reassembled(b: seq<Byte>)
    requires |b| >= HEADER
    ensures b[..4] + [b[4], 0, 0, 0] + b[8..16] + b[16..20] + b[20..] == b <==> b[5..8] == [0, 0, 0]
  {
    var c := b[..4] + [b[4], 0, 0, 0] + b[8..16] + b[16..20] + b[20..];
    assert c[5..8] == [0, 0, 0];
    if b[5..8] == [0, 0, 0] {
      assert b[5] == b[5..8][0] && b[6] == b[5..8][1] && b[7] == b[5..8][2];
    }
  }

  lemma {:induction false} ParseEncoded(kind: Kind, ms: seq<Message>, tail: seq<Byte>)
    requires (forall m | m in ms :: Proper(kind, m)) && Partial(kind, tail)
    ensures Unpack(kind, EncodeAll(ms) + tail) == Parsed(ms, tail, false)
    decreases |ms|
  {
    hide *;
    EncodeFirst(ms);
    if ms == [] {
      assert [] + tail == tail;
      PartialStays(kind, tail);
    } else {
      assert ms[0] in ms;
      var rest := EncodeAll(ms[1..]) + tail;
      assert EncodeAll(ms) + tail == Encode(ms[0]) + rest;
      RoundTrip(kind, ms[0], rest);
      assert forall m | m in ms[1..] :: m in ms;
      ParseEncoded(kind, ms[1..], tail);
      ParseOnce(kind, Encode(ms[0]) + rest);
      assert [ms[0]] + ms[1..] == ms;
    }
  }

  lemma EncodeFirst(ms: seq<Message>)
    ensures EncodeAll(ms) == if ms == [] then [] else Encode(ms[0]) + EncodeAll(ms[1..])
  {
  }

  lemma PartialStays(kind: Kind, tail: seq<Byte>)
    requires Partial(kind, tail)
    ensures Unpack(kind, tail) == Parsed([], tail, false)
  {
    hide Length, Malformed, Decode;
  }

  // ------------------------------------------------------------- segmentation

  /** What parsing the parts of a stream in turn gives. */
  ghost predicate Splits(p: Parsed, q: Parsed, whole: Parsed) {
    if p.lost then whole.lost && whole.ms == p.ms else whole == q.(ms := p.ms + q.ms)
  }

  /** Parsing at any point loses nothing: the rest is parsed as if it had all come at once. */
  lemma {:induction false} ParseSplits(kind: Kind, a: seq<Byte>, b: seq<Byte>)
    ensures Splits(Unpack(kind, a), Unpack(kind, Unpack(kind, a).rest + b), Unpack(kind, a + b))
    decreases |a|
  {
    ParseOnce(kind, a);
    hide Length, Malformed, Decode, Unpack;
    if |a| >= HEADER {
      HeaderKept(kind, a, b);
      ParseOnce(kind, a + b);
      if Whole(kind, a) {
        var n := HEADER + Length(a);
        assert (a + b)[n..] == a[n..] + b;
        ParseSplits(kind, a[n..], b);
        Append(Decode(a), Unpack(kind, a[n..]), Unpack(kind, Unpack(kind, a[n..]).rest + b), Unpack(kind, (a + b)[n..]));
      }
    }
  }

  lemma Append(m: Message, p: Parsed, q: Parsed, whole: Parsed)
    requires Splits(p, q, whole)
    ensures Splits(p.(ms := [m] + p.ms), q, whole.(ms := [m] + whole.ms))
  {
    assert [m] + (p.ms + q.ms) == [m] + p.ms + q.ms;
  }

  lemma ParseOnce(kind: Kind, b: seq<Byte>)
    ensures Unpack(kind, b) ==
            if Whole(kind, b) then
              var p := Unpack(kind, b[HEADER + Length(b)..]);
              p.(ms := [Decode(b)] + p.ms)
            else Parsed([], b, |b| >= HEADER && Malformed(kind, b))
  {
    hide Length, Malformed, Decode;
  }

  lemma HeaderKept(kind: Kind, a: seq<Byte>, b: seq<Byte>)
    requires |a| >= HEADER
    ensures Length(a + b) == Length(a) && Malformed(kind, a + b) == Malformed(kind, a)
    ensures |a| >= HEADER + Length(a) ==> Decode(a + b) == Decode(a)
  {
    hide Little;
    assert (a + b)[16..20] == a[16..20] && (a + b)[..4] == a[..4] && (a + b)[8..16] == a[8..16];
  }

  function Joined(pieces: seq<seq<Byte>>): seq<Byte>
    decreases |pieces|
  {
    if pieces == [] then [] else pieces[0] + Joined(pieces[1..])
  }

  /** Parse after every piece. */
  function Feed(kind: Kind, p: Parsed, pieces: seq<seq<Byte>>): Parsed
    decreases |pieces|
  {
    if pieces == [] || p.lost then p
    else
      var q := Unpack(kind, p.rest + pieces[0]);
      Feed(kind, q.(ms := p.ms + q.ms), pieces[1..])
  }

  /** However the bytes are cut into receives, the same messages come out, and the same link is lost. */
  lemma {:induction false} Segmentation(kind: Kind, p: Parsed, pieces: seq<seq<Byte>>)
    requires !p.lost && Unpack(kind, p.rest) == Parsed([], p.rest, false)
    ensures var f, w := Feed(kind, p, pieces), Unpack(kind, p.rest + Joined(pieces));
            f.ms == p.ms + w.ms && f.lost == w.lost && (!w.lost ==> f.rest == w.rest)
    decreases |pieces|
  {
    hide Unpack;
    if pieces == [] {
      assert p.rest + [] == p.rest && p.ms + [] == p.ms;
    } else {
      var q, later := Unpack(kind, p.rest + pieces[0]), Joined(pieces[1..]);
      assert p.rest + Joined(pieces) == p.rest + pieces[0] + later;
      ParseSplits(kind, p.rest + pieces[0], later);
      if !q.lost {
        ParseTwice(kind, p.rest + pieces[0]);
        Segmentation(kind, q.(ms := p.ms + q.ms), pieces[1..]);
        assert p.ms + q.ms + Unpack(kind, q.rest + later).ms == p.ms + (q.ms + Unpack(kind, q.rest + later).ms);
      }
    }
  }

  /** What is left over holds no whole message, and is short. */
  lemma {:induction false} ParseTwice(kind: Kind, b: seq<Byte>)
    ensures var p := Unpack(kind, b);
            !p.lost ==> Unpack(kind, p.rest) == Parsed([], p.rest, false) && |p.rest| < HEADER + PayloadMax(kind)
    decreases |b|
  {
    ParseOnce(kind, b);
    if Whole(kind, b) {
      hide Unpack, Malformed, Decode, Length;
      ParseTwice(kind, b[HEADER + Length(b)..]);
    } else {
      hide Little;
    }
  }

  // ------------------------------------------------- what the messages mean

  /** The type that carries a frame to this end: a request of the GUI's, or a frame on the segment. */
  function FrameType(kind: Kind): Byte { if kind == BoardLink then REQUEST else FRAME }

  function Numbers(bytes: seq<Byte>): (r: seq<nat>)
    ensures |r| == |bytes|
  {
    seq(|bytes|, i requires 0 <= i < |bytes| => bytes[i] as int)
  }

  /** What the step takes a message for. */
  function Meaning(kind: Kind, m: Message): Msg {
    if m.kind == FrameType(kind) then Frame(m.t, Numbers(m.payload))
    else if m.kind == TIME && |m.payload| == 8 then Time(m.t, Signed64(Little(m.payload)))
    else Other(m.t)
  }

  function Meanings(kind: Kind, ms: seq<Message>): (r: seq<Msg>)
    ensures |r| == |ms|
  {
    seq(|ms|, i requires 0 <= i < |ms| => Meaning(kind, ms[i]))
  }

  predicate InWord(t: int) { -0x8000_0000_0000_0000 <= t < 0x8000_0000_0000_0000 }

  /** A message of the protocol that the wire can carry. */
  predicate Sendable(kind: Kind, m: Msg) {
    InWord(m.t)
    && match m
       case Time(_, promise) => InWord(promise)
       case Frame(_, data) => |data| <= PayloadMax(kind) && forall x | x in data :: x < 256
       case Other(_) => true
  }

  function ToBytes(data: seq<nat>): (r: seq<Byte>)
    requires forall x | x in data :: x < 256
    ensures |r| == |data|
  {
    seq(|data|, i requires 0 <= i < |data| => assert data[i] in data; data[i] as Byte)
  }

  /** The message as its sender writes it. */
  function Written(kind: Kind, m: Msg): (r: Message)
    requires Sendable(kind, m)
  {
    match m
    case Time(t, promise) => Message(TIME, t, Bytes(promise % U64, 8))
    case Frame(t, data) => Message(FrameType(kind), t, ToBytes(data))
    case Other(t) => Message(HELLO, t, [])
  }

  /**
   The protocol's messages byte by byte: "CDJC", the type (1 a time report; 3 a frame between boards
   and 5 on the segment), the sender's time in two's complement and the payload's length, least
   significant byte first, then the payload; a report's payload is its promise.
   */
  lemma OnTheWire(kind: Kind, m: Msg)
    requires Sendable(kind, m)
    ensures var b := Encode(Written(kind, m));
            && |b| >= 20 && b[0] == 67 && b[1] == 68 && b[2] == 74 && b[3] == 67
            && (m.Time? ==> b[4] == 1 && |b| == 28 && Little(b[20..28]) == m.promise % 0x1_0000_0000_0000_0000)
            && (m.Frame? ==> b[4] == (if kind == BoardLink then 3 else 5) && |b| == 20 + |m.data| <= (if kind == BoardLink then 8212 else 2068)
                             && forall i | 0 <= i < |m.data| :: b[20 + i] as int == m.data[i])
            && Little(b[8..16]) == m.t % 0x1_0000_0000_0000_0000 && Little(b[16..20]) == |b| - 20
  {
    var w := Written(kind, m);
    var b := Encode(w);
    WrittenProper(kind, m);
    EncodeFields(kind, w, []);
    assert b + [] == b;
    assert b[..4][0] == 67 && b[..4][1] == 68 && b[..4][2] == 74 && b[..4][3] == 67;
    if m.Time? {
      PowersOf256();
      LittleBytes(m.promise % U64, 8);
    }
    hide Little, Bytes, Encode;
    if m.Frame? {
      forall i | 0 <= i < |m.data| ensures b[20 + i] as int == m.data[i] {
        assert m.data[i] in m.data;
        assert b[HEADER..HEADER + |w.payload|][i] == b[20 + i];
      }
    }
  }

  lemma WrittenProper(kind: Kind, m: Msg)
    requires Sendable(kind, m)
    ensures Proper(kind, Written(kind, m))
  {
  }

  /** And what a message read is taken for: a report only if its payload is one promise, a frame only by its link's own type. */
  lemma TakenFor(kind: Kind, m: Message)
    ensures var r := Meaning(kind, m);
            && r.t == m.t
            && (r.Frame? <==> m.kind == if kind == BoardLink then 3 else 5)
            && (r.Time? <==> m.kind == 1 && |m.payload| == 8)
            && (r.Frame? ==> |r.data| == |m.payload| && forall i | 0 <= i < |r.data| :: r.data[i] == m.payload[i] as int)
  {
    hide Little, Signed64;
  }

  function WrittenAll(kind: Kind, ms: seq<Msg>): (r: seq<Message>)
    requires forall m | m in ms :: Sendable(kind, m)
    ensures |r| == |ms|
  {
    seq(|ms|, i requires 0 <= i < |ms| => assert ms[i] in ms; Written(kind, ms[i]))
  }

  lemma WrittenMeans(kind: Kind, m: Msg)
    requires Sendable(kind, m)
    ensures Proper(kind, Written(kind, m)) && Meaning(kind, Written(kind, m)) == m
  {
    match m
    case Time(_, promise) =>
      PowersOf256();
      LittleBytes(promise % U64, 8);
      hide Little, Bytes, Signed64;
      SignedAgain(promise);
    case Frame(_, data) =>
      hide Little, Bytes;
      assert Numbers(ToBytes(data)) == data;
    case Other(_) =>
      hide Little, Bytes;
  }

  /** The link carries the protocol: however its bytes are cut, the far end's step takes in exactly what was sent. */
  lemma LinkCarries(kind: Kind, e: End, ms: seq<Msg>, pieces: seq<seq<Byte>>)
    requires forall m | m in ms :: Sendable(kind, m)
    requires Joined(pieces) == EncodeAll(WrittenAll(kind, ms))
    ensures var f := Feed(kind, Parsed([], [], false), pieces);
            !f.lost && f.rest == [] && Drain(e, Meanings(kind, f.ms)) == Drain(e, ms)
  {
    var ws := WrittenAll(kind, ms);
    forall i | 0 <= i < |ms| ensures Proper(kind, ws[i]) && Meaning(kind, ws[i]) == ms[i] {
      assert ms[i] in ms;
      WrittenMeans(kind, ms[i]);
    }
    hide Written, Meaning, Proper, Sendable, Drain;
    assert forall w | w in ws :: Proper(kind, w);
    ParseEncoded(kind, ws, []);
    assert EncodeAll(ws) + [] == [] + Joined(pieces);
    Segmentation(kind, Parsed([], [], false), pieces);
    hide Unpack, EncodeAll, WrittenAll;
    assert Meanings(kind, ws) == ms;
    assert [] + ws == ws;
  }

  // ------------------------------------------------------ the reader in place

  /** Nothing is lost between the stream `whole` and the messages taken and bytes still held. */
  ghost predicate Reads(kind: Kind, before: seq<Message>, whole: seq<Byte>, taken: seq<Message>, held: seq<Byte>) {
    var p, q := Unpack(kind, whole), Unpack(kind, held);
    before + p.ms == taken + q.ms && p.lost == q.lost && (!p.lost ==> p.rest == q.rest)
  }

  /** What a reader ends with: every message of the stream, and its rest unless the link is lost. */
  ghost predicate Done(kind: Kind, before: seq<Message>, whole: seq<Byte>, taken: seq<Message>, active: bool, held: seq<Byte>) {
    var p := Unpack(kind, whole);
    taken == before + p.ms && active == !p.lost && (active ==> held == p.rest)
  }

  lemma ReadOne(kind: Kind, before: seq<Message>, whole: seq<Byte>, taken: seq<Message>, held: seq<Byte>)
    requires Reads(kind, before, whole, taken, held)
    ensures if Whole(kind, held) then Reads(kind, before, whole, taken + [Decode(held)], held[HEADER + Length(held)..])
            else Done(kind, before, whole, taken, |held| < HEADER || !Malformed(kind, held), held)
  {
    ParseOnce(kind, held);
    if Whole(kind, held) {
      var q := Unpack(kind, held[HEADER + Length(held)..]);
      assert taken + ([Decode(held)] + q.ms) == taken + [Decode(held)] + q.ms;
    }
    hide Unpack, Decode, Length, Malformed;
  }

  lemma ReadPart(kind: Kind, before: seq<Message>, whole: seq<Byte>, taken: seq<Message>, held: seq<Byte>, rest: seq<Byte>)
    requires Reads(kind, before, whole, taken, held + rest)
    ensures var p := Unpack(kind, held);
            if p.lost then Unpack(kind, whole).lost && taken + p.ms == before + Unpack(kind, whole).ms
            else Reads(kind, before, whole, taken + p.ms, p.rest + rest) && |p.rest| < HEADER + PayloadMax(kind)
  {
    ParseTwice(kind, held);
    ParseSplits(kind, held, rest);
    hide Unpack;
    var p := Unpack(kind, held);
    if !p.lost {
      assert taken + (p.ms + Unpack(kind, p.rest + rest).ms) == taken + p.ms + Unpack(kind, p.rest + rest).ms;
    }
  }

  lemma ReadsFirst(kind: Kind, before: seq<Message>, whole: seq<Byte>)
    ensures Reads(kind, before, whole, before, whole)
  {
  }

  class Reader {
    const kind: Kind
    const input: array<Byte>
    var length: nat
    var active: bool
    /** Every message taken out so far. */
    var taken: seq<Message>

    ghost predicate Valid()
      reads this, input
    {
      && input.Length == HEADER + PayloadMax(kind) + 65536 && length <= input.Length
    }

    constructor (kind: Kind)
      ensures Valid() && active && length == 0 && taken == [] && this.kind == kind && fresh(input)
    {
      this.kind, input := kind, new Byte[HEADER + PayloadMax(kind) + 65536];
      length, active, taken := 0, true, [];
    }

    /** Whole messages out of the buffer; the rest moves to its front. */
    method TakeOut()
      requires Valid() && active
      modifies this, input
      ensures Valid() && Done(kind, old(taken), old(input[..length]), taken, active, input[..length])
    {
      ghost var whole, before := input[..length], taken;
      hide Reads, Done, Malformed, Decode, Length;
      ReadsFirst(kind, before, whole);
      var at := 0;
      assert input[0..length] == whole;
      while length - at >= HEADER
        invariant at <= length == old(length) && Valid() && active && input[..length] == whole
        invariant Reads(kind, before, whole, taken, input[at..length])
      {
        var b := input[at..length];
        ReadOne(kind, before, whole, taken, b);
        if Malformed(kind, b) {
          active := false;
          DoneLost(kind, before, whole, taken, b, whole);
          return;
        }
        if length - at < HEADER + Length(b) {
          break;
        }
        taken := taken + [Decode(b)];
        at := at + HEADER + Length(b);
        assert input[at..length] == b[HEADER + Length(b)..];
      }
      ReadOne(kind, before, whole, taken, input[at..length]);
      MoveDown(at);
    }

    /** memmove of what is left to the front. */
    method MoveDown(at: nat)
      requires Valid() && at <= length
      modifies this`length, input
      ensures Valid() && input[..length] == old(input[at..length])
    {
      ghost var was := input[..];
      for i := 0 to length - at
        invariant length == old(length)
        invariant forall k | 0 <= k < i :: input[k] == was[at + k]
        invariant forall k | i <= k < input.Length :: input[k] == was[k]
      {
        input[i] := input[at + i];
      }
      length := length - at;
    }

    /** One receive: as much of `data` as there is room for. */
    method Append(data: seq<Byte>) returns (n: nat)
      requires Valid() && length < input.Length && data != []
      modifies this`length, input
      ensures Valid() && 0 < n <= |data| && input[..length] == old(input[..length]) + data[..n]
    {
      n := if |data| < input.Length - length then |data| else input.Length - length;
      ghost var was := input[..];
      for i := 0 to n
        invariant length == old(length)
        invariant forall k | 0 <= k < input.Length :: input[k] == if length <= k < length + i then data[k - length] else was[k]
      {
        input[length + i] := data[i];
      }
      length := length + n;
      assert input[..length] == was[..length - n] + data[..n];
    }

    /** A full buffer is parsed, after which it has room, or the link is lost. */
    method MakeRoom(ghost before: seq<Message>, ghost whole: seq<Byte>, ghost rest: seq<Byte>)
      requires Valid() && active && Reads(kind, before, whole, taken, input[..length] + rest)
      modifies this, input
      ensures Valid()
      ensures if active then length < input.Length && Reads(kind, before, whole, taken, input[..length] + rest)
              else Done(kind, before, whole, taken, false, input[..length])
    {
      if length == input.Length {
        ReadPart(kind, before, whole, taken, input[..length], rest);
        hide Unpack, Reads;
        TakeOut();
        if active {
          assert |input[..length]| == length;
        } else {
          DoneLost(kind, before, whole, taken, [], input[..length]);
        }
      }
    }

    /** Receive once; `rest` is what the socket still holds. */
    method Fill(socket: seq<Byte>, ghost before: seq<Message>, ghost whole: seq<Byte>) returns (rest: seq<Byte>)
      requires Valid() && active && socket != [] && Reads(kind, before, whole, taken, input[..length] + socket)
      modifies this, input
      ensures Valid() && |rest| <= |socket| && (active ==> |rest| < |socket|)
      ensures if active then Reads(kind, before, whole, taken, input[..length] + rest)
              else Done(kind, before, whole, taken, false, input[..length])
    {
      hide Reads, Done;
      MakeRoom(before, whole, socket);
      if !active {
        return socket;
      }
      ghost var held := input[..length];
      var n := Append(socket);
      rest := socket[n..];
      assert held + socket == input[..length] + rest;
    }

    /** Everything the socket gives up, without waiting; then whole messages out.  The buffer is never too small. */
    method DrainAll(socket: seq<Byte>)
      requires Valid() && active
      modifies this, input
      ensures Valid() && Done(kind, old(taken), old(input[..length]) + socket, taken, active, input[..length])
    {
      ghost var whole, before := input[..length] + socket, taken;
      ReadsFirst(kind, before, whole);
      var rest := socket;
      while rest != []
        invariant Valid() && active && Reads(kind, before, whole, taken, input[..length] + rest)
        decreases |rest|
      {
        hide Reads, Done;
        rest := Fill(rest, before, whole);
        if !active {
          return;
        }
      }
      assert input[..length] + rest == input[..length];
      ghost var taken', held := taken, input[..length];
      TakeOut();
      hide Unpack;
    }
  }

  lemma DoneLost(kind: Kind, before: seq<Message>, whole: seq<Byte>, taken: seq<Message>, held: seq<Byte>, held': seq<Byte>)
    requires (Unpack(kind, whole).lost && taken == before + Unpack(kind, whole).ms)
             || Done(kind, before, whole, taken, false, held)
    ensures Done(kind, before, whole, taken, false, held')
  {
  }
}
