/**
 Order on the Pro DJ Link segment.  Frames of different players may overtake each other, but
 each player's frames, told apart by anything in their bytes, reach every other player in
 the order they were sent.
 */
module SenderOrder {
  import opened Common
  import opened Endpoint
  import opened TwoBoards
  import opened Segment

  /** The frames of a queue that `mine` recognises. */
  function Only(q: seq<Due>, mine: seq<nat> -> bool): seq<Due> {
    if q == [] then [] else (if mine(q[0].data) then [q[0]] else []) + Only(q[1..], mine)
  }

  lemma {:induction false} OnlyConcat(a: seq<Due>, b: seq<Due>, mine: seq<nat> -> bool)
    ensures Only(a + b, mine) == Only(a, mine) + Only(b, mine)
    decreases |a|
  {
    if a == [] {
      assert a + b == b;
    } else {
      assert (a + b)[0] == a[0] && (a + b)[1..] == a[1..] + b;
      var first := if mine(a[0].data) then [a[0]] else [];
      assert Only(a + b, mine) == first + Only(a[1..] + b, mine) && Only(a, mine) == first + Only(a[1..], mine);
      hide Only;
      OnlyConcat(a[1..], b, mine);
    }
  }

  lemma OnlyOne(d: Due, mine: seq<nat> -> bool)
    ensures Only([d], mine) == if mine(d.data) then [d] else []
  {
    assert [d][1..] == [];
  }

  lemma {:induction false} OnlyHas(q: seq<Due>, mine: seq<nat> -> bool, d: Due)
    ensures d in Only(q, mine) <==> d in q && mine(d.data)
    decreases |q|
  {
    if q != [] {
      OnlyHas(q[1..], mine, d);
      assert d in q <==> d == q[0] || d in q[1..];
    }
  }

  // -------------------------------------------------- what reading preserves

  /** A frame no earlier than any recognised one goes behind them all. */
  lemma {:induction false} InsertOnly(q: seq<Due>, d: Due, mine: seq<nat> -> bool)
    requires mine(d.data) ==> forall x | x in Only(q, mine) :: x.due <= d.due
    ensures Only(InsertDue(q, d), mine) == Only(q, mine) + if mine(d.data) then [d] else []
    decreases |q|
  {
    hide *;
    OnlyOne(d, mine);
    InsertDueOne(q, d);
    if q == [] || q[|q| - 1].due <= d.due {
      OnlyConcat(q, [d], mine);
      assert q == [] ==> [d] == q + [d];
    } else {
      var front, last := q[..|q| - 1], q[|q| - 1];
      assert q == front + [last] && last in q;
      OnlyConcat(front, [last], mine);
      OnlyOne(last, mine);
      OnlyHas(q, mine, last);
      InsertOnly(front, d, mine);
      OnlyConcat(InsertDue(front, d), [last], mine);
    }
  }

  /** Reading a batch puts its recognised frames behind those that wait, where they come in time order. */
  lemma {:induction false} DrainOnly(e: End, ms: seq<Msg>, mine: seq<nat> -> bool)
    requires e.kind == PlayerLink && Sorted(Only(e.due, mine) + Only(Dues(e.quantum, ms), mine))
    ensures Only(Drain(e, ms).due, mine) == Only(e.due, mine) + Only(Dues(e.quantum, ms), mine)
    decreases |ms|
  {
    hide *;
    DrainFirst(e, ms, mine);
    if ms != [] {
      var a, b, c := Only(e.due, mine), Only(Dues(e.quantum, [ms[0]]), mine), Only(Dues(e.quantum, ms[1..]), mine);
      DuesFirst(e.quantum, ms, mine);
      assert a + (b + c) == (a + b) + c;
      ParseOnly(e, ms[0], c, mine);
      DrainOnly(Parse(e, ms[0]), ms[1..], mine);
    }
  }

  lemma DrainFirst(e: End, ms: seq<Msg>, mine: seq<nat> -> bool)
    ensures if ms == [] then Drain(e, ms) == e && Only(e.due, mine) + Only(Dues(e.quantum, ms), mine) == Only(e.due, mine)
            else Drain(e, ms) == Drain(Parse(e, ms[0]), ms[1..])
  {
    hide Parse;
  }

  lemma DuesFirst(quantum: int, ms: seq<Msg>, mine: seq<nat> -> bool)
    requires ms != []
    ensures Only(Dues(quantum, ms), mine) == Only(Dues(quantum, [ms[0]]), mine) + Only(Dues(quantum, ms[1..]), mine)
  {
    assert [ms[0]] + ms[1..] == ms;
    DuesConcat(quantum, [ms[0]], ms[1..]);
    OnlyConcat(Dues(quantum, [ms[0]]), Dues(quantum, ms[1..]), mine);
    hide Only, Dues;
  }

  lemma ParseOnly(e: End, m: Msg, rest: seq<Due>, mine: seq<nat> -> bool)
    requires e.kind == PlayerLink
    requires Sorted(Only(e.due, mine) + Only(Dues(e.quantum, [m]), mine) + rest)
    ensures var x := Parse(e, m);
            x.kind == e.kind && x.quantum == e.quantum && Only(x.due, mine) == Only(e.due, mine) + Only(Dues(e.quantum, [m]), mine)
  {
    OneDue(e.quantum, m);
    assert Only([], mine) == [];
    if m.Frame? && m.data != [] {
      var d := Due(m.t + e.quantum, m.data);
      assert Parse(e, m).due == InsertDue(e.due, d);
      hide *;
      OnlyOne(d, mine);
      if mine(d.data) {
        BehindAll(Only(e.due, mine), d, rest);
      }
      InsertOnly(e.due, d, mine);
      ParseKeepsEnd(e, m);
    } else {
      assert Parse(e, m).due == e.due;
      hide *;
      ParseKeepsEnd(e, m);
    }
  }

  lemma ParseKeepsEnd(e: End, m: Msg)
    ensures Parse(e, m).kind == e.kind && Parse(e, m).quantum == e.quantum
  {
    hide InsertDue;
  }

  lemma BehindAll(q: seq<Due>, d: Due, rest: seq<Due>)
    requires Sorted(q + [d] + rest)
    ensures forall x | x in q :: x.due <= d.due
  {
    var all := q + [d] + rest;
    forall x | x in q ensures x.due <= d.due {
      var i :| 0 <= i < |q| && q[i] == x;
      assert all[i] == x && all[|q|] == d;
    }
  }

  // ------------------------------------------------------------ the invariant

  /** `mine` recognises the frames of player `i` and no others. */
  ghost predicate Recognises(s: Net, n: nat, i: nat, mine: seq<nat> -> bool)
    requires Sized(s, n)
  {
    forall k, d | 0 <= k < n && d in s.sent[k] :: mine(d.data) <==> k == i
  }

  ghost predicate LogKnown(log: seq<Relayed>, n: nat) {
    forall x | x in log :: x.from < n
  }

  /** What a player sent is in time order. */
  ghost predicate SentInOrder(e: End, sent: seq<Due>) {
    Sorted(sent) && forall d | d in sent :: d.due <= e.now + e.quantum
  }

  /** The recognised frames on their way to a player, from those it was handed to those on its wire, are those relayed, in order. */
  ghost predicate InOrder(quantum: int, due: seq<Due>, down: seq<Msg>, got: seq<Handover>, inbox: seq<Due>, mine: seq<nat> -> bool) {
    Only(inbox, mine) == Only(Frames(got), mine) + Only(due, mine) + Only(Dues(quantum, down), mine)
  }

  ghost predicate Orderly(s: Net, n: nat, quantum: int, i: nat, j: nat, mine: seq<nat> -> bool)
    requires Sized(s, n) && i < n && j < n
  {
    && LogKnown(s.log, n) && SentInOrder(s.players[i], s.sent[i])
    && InOrder(quantum, s.players[j].due, s.down[j], s.got[j], Except(s.log, j), mine)
  }

  lemma {:induction false} FromHas(log: seq<Relayed>, x: Relayed)
    requires x in log
    ensures x.frame in From(log, x.from)
    decreases |log|
  {
    var front, last := log[..|log| - 1], log[|log| - 1];
    assert log == front + [last];
    if x != last {
      FromHas(front, x);
    }
  }

  /** What was relayed to another player of the recognised frames is what was relayed of player `i`'s. */
  lemma {:induction false} ExceptOnly(log: seq<Relayed>, i: nat, j: nat, mine: seq<nat> -> bool)
    requires i != j && forall x | x in log :: mine(x.frame.data) <==> x.from == i
    ensures Only(Except(log, j), mine) == From(log, i)
    decreases |log|
  {
    if log != [] {
      var front, last := log[..|log| - 1], log[|log| - 1];
      assert last in log && forall x | x in front :: x in log;
      ExceptOnly(front, i, j, mine);
      OnlyOne(last.frame, mine);
      OnlyConcat(Except(front, j), if last.from == j then [] else [last.frame], mine);
    }
  }

  /** So they are a first part of what it sent, and in time order. */
  lemma RelayedInOrder(s: Net, n: nat, quantum: int, i: nat, j: nat, mine: seq<nat> -> bool)
    requires Fine(s, n, quantum) && i < n && j < n && i != j && Recognises(s, n, i, mine) && LogKnown(s.log, n)
    ensures Only(Except(s.log, j), mine) == From(s.log, i) <= s.sent[i]
    ensures Sorted(s.sent[i]) ==> Sorted(Only(Except(s.log, j), mine))
  {
    forall x | x in s.log ensures mine(x.frame.data) <==> x.from == i {
      FromHas(s.log, x);
      SentHolds(s, n, quantum, x.from);
      assert x.frame in s.sent[x.from];
    }
    ExceptOnly(s.log, i, j, mine);
    SentHolds(s, n, quantum, i);
    hide Fine, From, Except, Recognises, LogKnown;
  }

  lemma SentHolds(s: Net, n: nat, quantum: int, k: nat)
    requires Fine(s, n, quantum) && k < n
    ensures From(s.log, k) <= s.sent[k] && s.players[k].quantum == quantum && s.players[k].kind == PlayerLink && Inv(s.players[k])
  {
    assert Ok(s, quantum, k);
    hide Inv, Flow, EndP, Dues, From, Ledger, DownOk;
  }

  // ------------------------------------------------------------- every step

  /** A player's action keeps its own recognised frames in order. */
  lemma ReadsInOrder(quantum: int, e: End, a: Act, rest: seq<Msg>, got: seq<Handover>, inbox: seq<Due>, mine: seq<nat> -> bool)
    requires e.kind == PlayerLink && e.quantum == quantum && Keeps(e, a) && Sorted(Only(inbox, mine))
    requires InOrder(quantum, e.due, Input(a) + rest, got, inbox, mine)
    ensures var o := Do(e, a); InOrder(quantum, o.end.due, rest, got + Handovers(o.end.now, o.handed), inbox, mine)
  {
    hide *;
    var o, ms := Do(e, a), Input(a);
    KeepsQueue(e, a);
    InOrderFrom(quantum, e.due, ms + rest, got, inbox, mine);
    InOrderFrom(quantum, o.end.due, rest, got + Handovers(o.end.now, o.handed), inbox, mine);
    var f, d, r, t := Only(Frames(got), mine), Only(e.due, mine), Only(Dues(quantum, ms), mine), Only(Dues(quantum, rest), mine);
    DuesConcat(quantum, ms, rest);
    OnlyConcat(Dues(quantum, ms), Dues(quantum, rest), mine);
    LedgerMoves(got, o.end.now, o.handed);
    OnlyConcat(Frames(got), o.handed, mine);
    OnlyConcat(o.handed, o.end.due, mine);
    assert f + d + (r + t) == f + (d + r) + t;
    MiddleSorted(f, d + r, t, Only(inbox, mine));
    DrainOnly(e, ms, mine);
    Rejoin(f, d, r, t, Only(o.handed, mine), Only(o.end.due, mine));
  }

  lemma KeepsQueue(e: End, a: Act)
    requires Keeps(e, a)
    ensures Do(e, a).handed + Do(e, a).end.due == Drain(e, Input(a)).due
  {
    hide Inv, Flow, EndP, Do, Drain;
  }

  lemma InOrderFrom(quantum: int, due: seq<Due>, down: seq<Msg>, got: seq<Handover>, inbox: seq<Due>, mine: seq<nat> -> bool)
    ensures InOrder(quantum, due, down, got, inbox, mine) <==>
            Only(inbox, mine) == Only(Frames(got), mine) + Only(due, mine) + Only(Dues(quantum, down), mine)
  {
  }

  lemma MiddleSorted(a: seq<Due>, b: seq<Due>, c: seq<Due>, all: seq<Due>)
    requires Sorted(all) && all == a + b + c
    ensures Sorted(b)
  {
    forall i, j | 0 <= i < j < |b| ensures b[i].due <= b[j].due {
      assert all[|a| + i] == b[i] && all[|a| + j] == b[j];
    }
  }

  lemma Rejoin(f: seq<Due>, d: seq<Due>, r: seq<Due>, t: seq<Due>, handed: seq<Due>, left: seq<Due>)
    requires handed + left == d + r
    ensures f + d + (r + t) == (f + handed) + left + t
  {
    assert f + d + (r + t) == f + (d + r) + t;
    assert f + (handed + left) + t == (f + handed) + left + t;
  }

  /** One message more on the wire, with what it adds to what was relayed. */
  lemma WireInOrder(quantum: int, due: seq<Due>, down: seq<Msg>, got: seq<Handover>, inbox: seq<Due>, m: Msg, mine: seq<nat> -> bool)
    requires InOrder(quantum, due, down, got, inbox, mine)
    ensures InOrder(quantum, due, down + [m], got, inbox + Dues(quantum, [m]), mine)
  {
    DuesConcat(quantum, down, [m]);
    OnlyConcat(Dues(quantum, down), Dues(quantum, [m]), mine);
    OnlyConcat(inbox, Dues(quantum, [m]), mine);
    hide Only, Dues, Frames;
  }

  /** What a player sends next comes no earlier than what it sent. */
  lemma SendsInOrder(e: End, a: Act, sent: seq<Due>)
    requires Keeps(e, a) && SentInOrder(e, sent)
    ensures SentInOrder(Do(e, a).end, if a.Send? && a.data != [] then sent + [Due(e.now + e.quantum, a.data)] else sent)
  {
    var r := Do(e, a).end;
    assert e.now <= r.now && r.quantum == e.quantum;
    hide Keeps, Do;
  }

  lemma PlayerOrderly(s: Net, n: nat, quantum: int, i: nat, j: nat, k: nat, a: Act, mine: seq<nat> -> bool)
    requires Fine(s, n, quantum) && i < n && j < n && i != j && Recognises(s, n, i, mine) && Orderly(s, n, quantum, i, j, mine)
    requires CanHappen(s, n, Player(k, a))
    ensures Sized(Happen(s, n, Player(k, a)), n) && Orderly(Happen(s, n, Player(k, a)), n, quantum, i, j, mine)
  {
    hide *;
    FineSized(s, n, quantum);
    PlayerOthers(s, n, k, a, i);
    PlayerOthers(s, n, k, a, j);
    var e, t, rest := s.players[k], Happen(s, n, Player(k, a)), s.down[k][|Input(a)|..];
    PlayerAt(s, n, k, a);
    OrderlyParts(s, n, quantum, i, j, mine);
    OrderlyParts(t, n, quantum, i, j, mine);
    PlayerFine(s, n, quantum, k, a);
    SentHolds(s, n, quantum, k);
    if k == i {
      SendsInOrder(e, a, s.sent[i]);
    }
    if k == j {
      RelayedInOrder(s, n, quantum, i, j, mine);
      OrderlySorted(s.players[i], s.sent[i]);
      ReadsInOrder(quantum, e, a, rest, s.got[j], Except(s.log, j), mine);
    }
  }

  lemma PlayerOthers(s: Net, n: nat, k: nat, a: Act, i: nat)
    requires CanHappen(s, n, Player(k, a)) && i < n
    ensures var t := Happen(s, n, Player(k, a));
            && Sized(t, n) && t.log == s.log && k < n && s.down[k] == Input(a) + s.down[k][|Input(a)|..]
            && t.sent[k] == (if a.Send? && a.data != [] then s.sent[k] + [Due(s.players[k].now + s.players[k].quantum, a.data)]
                             else s.sent[k])
            && (i != k ==> t.players[i] == s.players[i] && t.down[i] == s.down[i] && t.got[i] == s.got[i] && t.sent[i] == s.sent[i])
  {
    hide Do, Enabled, Input;
  }

  lemma OrderlyParts(s: Net, n: nat, quantum: int, i: nat, j: nat, mine: seq<nat> -> bool)
    requires Sized(s, n) && i < n && j < n
    ensures Orderly(s, n, quantum, i, j, mine) <==>
            && LogKnown(s.log, n) && SentInOrder(s.players[i], s.sent[i])
            && InOrder(quantum, s.players[j].due, s.down[j], s.got[j], Except(s.log, j), mine)
  {
  }

  lemma OrderlySorted(e: End, sent: seq<Due>)
    requires SentInOrder(e, sent)
    ensures Sorted(sent)
  {
  }

  lemma RelayOrderly(s: Net, n: nat, quantum: int, i: nat, j: nat, k: nat, mine: seq<nat> -> bool)
    requires Fine(s, n, quantum) && i < n && j < n && Orderly(s, n, quantum, i, j, mine) && CanHappen(s, n, Relay(k))
    ensures Sized(Happen(s, n, Relay(k)), n) && Orderly(Happen(s, n, Relay(k)), n, quantum, i, j, mine)
  {
    var m, t := s.up[k][0], Happen(s, n, Relay(k));
    SentHolds(s, n, quantum, k);
    RelayFields(s, n, k, j);
    OrderlyParts(s, n, quantum, i, j, mine);
    OrderlyParts(t, n, quantum, i, j, mine);
    assert m.Frame? || Dues(quantum, [m]) == [] by { OneDue(quantum, m); }
    hide *;
    LogSplits(quantum, s.log, k, m, j);
    StillKnown(quantum, s.log, k, m, n);
    WireInOrder(quantum, s.players[j].due, s.down[j], s.got[j], Except(s.log, j), m, mine);
    assert Except(s.log, j) + [] == Except(s.log, j);
  }

  lemma RelayFields(s: Net, n: nat, k: nat, j: nat)
    requires CanHappen(s, n, Relay(k)) && j < n
    ensures var m, t := s.up[k][0], Happen(s, n, Relay(k));
            && Sized(t, n) && t.log == LogOf(s.players[k].quantum, s.log, k, m) && t.players == s.players && t.got == s.got && t.sent == s.sent
            && t.down[j] == if m.Frame? && j != k then s.down[j] + [m] else s.down[j]
  {
  }

  lemma StillKnown(quantum: int, log: seq<Relayed>, k: nat, m: Msg, n: nat)
    requires LogKnown(log, n) && k < n
    ensures LogKnown(LogOf(quantum, log, k, m), n)
  {
  }

  lemma AnnounceOrderly(s: Net, n: nat, quantum: int, i: nat, j: nat, k: nat, at: int, mine: seq<nat> -> bool)
    requires i < n && j < n && Sized(s, n) && Orderly(s, n, quantum, i, j, mine) && CanHappen(s, n, Announce(k, at))
    ensures Sized(Happen(s, n, Announce(k, at)), n) && Orderly(Happen(s, n, Announce(k, at)), n, quantum, i, j, mine)
  {
    hide *;
    AnnounceFields(s, n, k, at, j);
    var m := Time(at, LeastBut(s.heard, k, n).value);
    OrderlyParts(s, n, quantum, i, j, mine);
    OrderlyParts(Happen(s, n, Announce(k, at)), n, quantum, i, j, mine);
    OneDue(quantum, m);
    WireInOrder(quantum, s.players[j].due, s.down[j], s.got[j], Except(s.log, j), m, mine);
    assert Except(s.log, j) + [] == Except(s.log, j);
  }

  lemma AnnounceFields(s: Net, n: nat, k: nat, at: int, j: nat)
    requires CanHappen(s, n, Announce(k, at)) && j < n
    ensures k < n == |s.players| == |s.down| == |s.heard| == |s.sent| == |s.got| && LeastBut(s.heard, k, n).Some?
    ensures var t := Happen(s, n, Announce(k, at));
            && Sized(t, n) && t.log == s.log && t.players == s.players && t.got == s.got && t.sent == s.sent
            && t.down[j] == if j == k then s.down[j] + [Time(at, LeastBut(s.heard, k, n).value)] else s.down[j]
  {
    hide LeastBut;
  }

  lemma HappenOrderly(s: Net, n: nat, quantum: int, i: nat, j: nat, ev: Event, mine: seq<nat> -> bool)
    requires Fine(s, n, quantum) && i < n && j < n && i != j && Recognises(s, n, i, mine) && Orderly(s, n, quantum, i, j, mine)
    requires CanHappen(s, n, ev)
    ensures Sized(Happen(s, n, ev), n) && Orderly(Happen(s, n, ev), n, quantum, i, j, mine)
  {
    hide *;
    match ev
    case Player(k, a) => PlayerOrderly(s, n, quantum, i, j, k, a, mine);
    case Relay(k) => RelayOrderly(s, n, quantum, i, j, k, mine);
    case Announce(k, at) =>
      FineSized(s, n, quantum);
      AnnounceOrderly(s, n, quantum, i, j, k, at, mine);
  }

  lemma FineSized(s: Net, n: nat, quantum: int)
    requires Fine(s, n, quantum)
    ensures Sized(s, n)
  {
  }

  // ---------------------------------------------------------- over whole runs

  /** Nothing sent is taken back, so what is recognised at the end is recognised all along. */
  lemma {:induction false} RecognisedBefore(s: Net, n: nat, run: seq<Event>, i: nat, mine: seq<nat> -> bool)
    requires Sized(s, n) && CanGo(s, n, run) && Sized(Go(s, n, run), n) && Recognises(Go(s, n, run), n, i, mine)
    ensures Recognises(s, n, i, mine)
    decreases |run|
  {
    if run != [] {
      var t := Happen(s, n, run[0]);
      GoFirst(s, n, run);
      SentStays(s, n, run[0]);
      hide *;
      RecognisedBefore(t, n, run[1..], i, mine);
      RecognisedPart(s, t, n, i, mine);
    }
  }

  lemma RecognisedPart(s: Net, t: Net, n: nat, i: nat, mine: seq<nat> -> bool)
    requires Sized(s, n) && Sized(t, n) && (forall k | 0 <= k < n :: s.sent[k] <= t.sent[k]) && Recognises(t, n, i, mine)
    ensures Recognises(s, n, i, mine)
  {
    forall k, d | 0 <= k < n && d in s.sent[k] ensures mine(d.data) <==> k == i {
      assert s.sent[k] <= t.sent[k] && d in t.sent[k];
    }
  }

  lemma SentStays(s: Net, n: nat, ev: Event)
    requires CanHappen(s, n, ev)
    ensures Sized(s, n) && Sized(Happen(s, n, ev), n) && forall k | 0 <= k < n :: s.sent[k] <= Happen(s, n, ev).sent[k]
  {
    hide Do, Enabled, Input, LeastBut;
  }

  lemma {:induction false} GoOrderly(s: Net, n: nat, quantum: int, i: nat, j: nat, run: seq<Event>, mine: seq<nat> -> bool)
    requires Fine(s, n, quantum) && i < n && j < n && i != j && Orderly(s, n, quantum, i, j, mine) && CanGo(s, n, run)
    requires Sized(Go(s, n, run), n) && Recognises(Go(s, n, run), n, i, mine)
    ensures Fine(Go(s, n, run), n, quantum) && Orderly(Go(s, n, run), n, quantum, i, j, mine)
    decreases |run|
  {
    hide *;
    FineSized(s, n, quantum);
    if run == [] {
      GoNowhere(s, n);
    } else {
      RecognisedBefore(s, n, run, i, mine);
      GoFirst(s, n, run);
      HappenFine(s, n, quantum, run[0]);
      HappenOrderly(s, n, quantum, i, j, run[0], mine);
      GoOrderly(Happen(s, n, run[0]), n, quantum, i, j, run[1..], mine);
    }
  }

  lemma JoinOrderly(n: nat, quantum: int, i: nat, j: nat, mine: seq<nat> -> bool)
    requires i < n && j < n
    ensures Sized(Join(n, quantum), n) && Orderly(Join(n, quantum), n, quantum, i, j, mine)
  {
    assert Frames([]) == [];
  }

  /**
   Order of each sender's frames.  Whatever distinguishes player `i`'s frames, in every run the
   ones player `j` has been handed are the first ones `i` sent, in the order it sent them.
   */
  lemma SenderInOrder(s: Net, n: nat, quantum: int, i: nat, j: nat, mine: seq<nat> -> bool)
    requires ReachableNet(s, n, quantum) && i < n && j < n && i != j && Sized(s, n) && Recognises(s, n, i, mine)
    ensures Only(Frames(s.got[j]), mine) <= s.sent[i]
  {
    var run :| CanGo(Join(n, quantum), n, run) && s == Go(Join(n, quantum), n, run);
    JoinFine(n, quantum);
    JoinOrderly(n, quantum, i, j, mine);
    hide ReachableNet, Fine, Recognises, Go, CanGo, Join;
    GoOrderly(Join(n, quantum), n, quantum, i, j, run, mine);
    RelayedInOrder(s, n, quantum, i, j, mine);
    hide Only, From, Except, Sorted;
  }
}
